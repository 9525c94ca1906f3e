# The Bible Story shop and parcel tracker, modelled in Dafny

A React single-page shop sells a ten-volume book set for cash on delivery. It also tracks the parcel. Its logic lives in a handful of files:

- the landing page builds and stores an order record from a sanitised form;
- a tracker page looks an order up by id and shows a status table;
- when the order is on the road, a polling hook follows the courier's live location on a map;
- an admin dashboard filters orders and updates their status;
- a mock authentication context handles login, signup, a 24-hour session and role checks, and a route guard uses it;
- a courier API client keeps a time-to-live cache and retries requests, re-authenticating on HTTP 401.

Each source file is one Dafny module. `Wrappers` (Option/Result) and `Text` (the JavaScript string operations the code relies on) are shared by all.

- Pure logic is written as functions, which lemmas relate to reference definitions.
- Code that changes state is written as classes. Their fields are the component's state. Each method is proved equal to a pure step function of the old state, and the properties are proved about that function.
- The clock, the randomness, the network and the browser's storage are parameters:
  - `now`, the random tracking suffix and the ISO time strings are passed in;
  - replies of the courier's server are scripted by call number (`fetchAt(k)`, `authAt(k)`);
  - stored lists are fields.

## Model

| member | source | states |
|---|---|---|
| Text.TrimStartBy | src/Home.jsx:162-166 | the front trim is never longer than its input |
| Text.TrimStartByFacts | src/Home.jsx:162-166 | the front trim is a suffix of the input; it drops only stripped characters and stops at a character that is not stripped |
| Text.TrimEndBy | src/Home.jsx:162-166 | the back trim is never longer than its input |
| Text.TrimEndByFacts | src/Home.jsx:162-166 | the back trim is a prefix of the input; it drops only stripped characters and stops at a character that is not stripped |
| Text.TrimBy | src/Home.jsx:162-166 | the result is no longer than the input and neither starts nor ends with a stripped character |
| Text.TrimByRemovesOnlyEnds | src/Home.jsx:162-166 | the result is a contiguous slice of the input; everything removed before and after it is stripped characters |
| Text.TrimByFixpoint | src/ShippingTracker.jsx:55 | a string already free of stripped ends is its own trim |
| Text.TrimByIdempotent | src/ShippingTracker.jsx:55 | trimming twice equals trimming once |
| Text.Trim | src/ShippingTracker.jsx:55 | `trim` yields a string with no whitespace at either end, no longer than the input |
| Text.TrimmedIsFixpoint | src/Home.jsx:162-166 | a string with no whitespace at either end is unchanged by `trim` |
| Text.IsWhitespace | src/Home.jsx:162 | no contract of its own; the WhiteSpace and LineTerminator characters that `trim` strips and `\s` matches; `Text.Trim` and `Home.TrackingPrefixCharacters` state what is removed |
| Text.IsDigit | src/Home.jsx:164 | no contract of its own; the ASCII digits `\d` matches; `Home.SanitizedContact` states that the contact keeps exactly these, `+`, `-` and whitespace |
| Text.Lower | src/Home.jsx:165 | `toLowerCase` keeps the length and maps each character on its own |
| Text.LowerConcat | src/AdminDashboard.jsx:70 | lower-casing distributes over concatenation |
| Text.Upper | src/Home.jsx:201 | `toUpperCase` keeps the length and maps each character on its own |
| Text.LowerChar | src/Home.jsx:165 | no contract of its own; `Text.LowerCharFacts` states that A to Z map to a to z and every other character is fixed |
| Text.UpperChar | src/Home.jsx:201 | no contract of its own; maps a to z to A to Z; `Home.TrackingPrefixCharacters` states that no lower-case letter survives |
| Text.LowerCharFacts | src/Home.jsx:165 | a lower-cased character is never an upper-case letter, and only upper-case letters change |
| Text.LowerFacts | src/Home.jsx:165 | a lower-cased string has no upper-case letter; lower-casing a trimmed string keeps it trimmed |
| Text.LowerIdempotent | src/AdminDashboard.jsx:49-52 | lower-casing twice equals lower-casing once |
| Text.StartsWith | src/ShippingTracker.jsx:56 | no contract of its own; `startsWith`; `ShippingTracker.NormalizeCases` states the two cases it decides |
| Text.Contains | src/AdminDashboard.jsx:51-52 | no contract of its own; `includes`; `Text.IndexOf` finds a position exactly when it holds |
| Text.IndexOf | src/AdminDashboard.jsx:70 | `indexOf` finds a position exactly when the pattern occurs |
| Text.IndexOfFacts | src/AdminDashboard.jsx:70 | the position found is an occurrence, and no earlier position is one |
| Text.ReplaceFirst | src/AdminDashboard.jsx:70 | a string-pattern `replace` leaves the string alone when there is no occurrence, rewrites the prefix when the string starts with the pattern, and otherwise changes the length by the replacement's length minus the pattern's; `Text.ReplaceFirstAtFirstOccurrence` states the result at the first occurrence |
| Text.ContainsAt | src/AdminDashboard.jsx:70 | an occurrence at any position means the pattern is contained |
| Text.ReplaceFirstAtFirstOccurrence | src/AdminDashboard.jsx:70 | for any position that holds an occurrence with none before it, the result is the part before it, the replacement and the part after the occurrence |
| Text.Filter | src/AdminDashboard.jsx:45-53 | `filter`, and on a string the `/g` character-class `replace`, never lengthens its input; which elements it keeps is stated by `Text.FilterKeepsOrder` |
| Text.FilterKeepsOrder | src/AdminDashboard.jsx:45-53 | the result is a subsequence of the input, holds exactly the elements that pass, and every element of it passes |
| Text.FilterTwice | src/AdminDashboard.jsx:44-54 | filtering by one predicate then another equals filtering by both |
| Text.FilterSplits | src/AdminDashboard.jsx:158-169 | a predicate and its negation split the list: the two lengths add up to the whole |
| Text.FilterSame | src/AdminDashboard.jsx:44-54 | predicates that agree everywhere filter alike |
| Text.FilterAll | src/Home.jsx:201 | a list whose every element passes is kept whole |
| Text.Utf16Units | src/Signup.jsx:76 | no contract of its own; two code units for a character above U+FFFF, one otherwise; summed by `Text.Utf16Length` |
| Text.Utf16Length | src/Signup.jsx:76 | `length` counts at least one and at most two UTF-16 code units per character |
| Text.Utf16LengthOfBmp | src/Signup.jsx:76 | the code-unit count equals the character count exactly when no character lies above U+FFFF |
| Text.Utf16LengthConcat | src/Signup.jsx:76 | the length of a concatenation is the sum of the lengths |
| Text.DigitChar | src/Home.jsx:200 | each decimal digit prints as a character from `0` to `9` |
| Text.DigitsValue | src/Home.jsx:200 | no contract of its own; the number a digit string denotes, which `Text.NatToStringValue` relates to `String(n)` |
| Text.NatToString | src/Home.jsx:200 | no contract of its own; `String(n)` for a clock value; `Text.NatToStringDigits` states that it is a non-empty string of digits without a leading zero |
| Text.NatToStringDigits | src/Home.jsx:200 | the decimal text of `Date.now()` is a non-empty run of digits, with a leading `0` only for zero |
| Text.NatToStringValue | src/Home.jsx:200 | the decimal text read back as a number is `n` itself |
| Text.NatToStringInjective | src/Home.jsx:200 | different numbers print as different texts |
| CourierApi.OrElse | src/courierApi.js:27 | `v \|\| w` gives `v` when it is truthy, else `w` |
| CourierApi.EnvVar | src/courierApi.js:4 | no contract of its own; an absent variable reads as `undefined`; `CourierApi.Credential` states the fallback that follows |
| CourierApi.Truthy | src/courierApi.js:27 | no contract of its own; a present, non-empty string; `CourierApi.OrElse` and `CourierApi.TryOnce` state the branches it decides |
| CourierApi.CourierStem | src/courierApi.js:21-26 | no contract of its own; `CourierApi.CourierStemsDistinct` states that the four known couriers have distinct stems |
| CourierApi.VarSuffix | src/courierApi.js:20-50 | no contract of its own; the `_API_KEY`, `_CLIENT_ID` and `_CLIENT_SECRET` endings; `CourierApi.KnownCouriersHaveOwnVariables` states the variable each courier reads |
| CourierApi.GenericVar | src/courierApi.js:27 | no contract of its own; the `VITE_COURIER_…` variable; `CourierApi.Credential` states when it is used |
| CourierApi.Credential | src/courierApi.js:20-50 | a known courier reads its own variable and falls back to the generic one when that is unset or empty; any other courier reads the generic one |
| CourierApi.KnownCouriersHaveOwnVariables | src/courierApi.js:21-26 | the four couriers' key, client-id and secret variables, each named in full |
| CourierApi.CourierStemsDistinct | src/courierApi.js:21-49 | no two known couriers share a variable |
| CourierApi.LoginRequest | src/courierApi.js:53-65 | the login goes to `baseUrl + "/auth/login"` with the courier's API key, and sends the generic client id and secret |
| CourierApi.BaseUrl | src/courierApi.js:4 | no contract of its own; the configured URL when truthy, else the example URL; `CourierApi.LoginRequest` states the login URL built on it |
| CourierApi.LoginIgnoresCourierClientId | src/courierApi.js:7-63 | in a concrete environment the client id the constructor resolves differs from the one the login sends |
| CourierApi.UpdatesPath | src/courierApi.js:96-99 | `?since=` is appended exactly when `since` is truthy, so a `since` of 0 is dropped |
| CourierApi.TrackingPath | src/courierApi.js:81-83 | no contract of its own; `CourierApi.RouteAliasesTracking` states that it and the route path can share a cache entry |
| CourierApi.LocationPath | src/courierApi.js:86-88 | no contract of its own; `CourierApi.LocationBypassesCache` states that the location request never reads or writes the cache |
| CourierApi.RoutePath | src/courierApi.js:91-93 | no contract of its own; `CourierApi.RouteAliasesTracking` states that it is the tracking path of `n + "/route"` |
| CourierApi.OptionsJson | src/courierApi.js:103 | no contract of its own; `JSON.stringify` of the options, of which only the method is rendered; `CourierApi.CacheKeyInjective` relies on it being one suffix for equal options |
| CourierApi.CacheKey | src/courierApi.js:102-104 | no contract of its own; `CourierApi.CacheKeyInjective` states that with equal options different endpoints get different keys |
| CourierApi.CacheKeyInjective | src/courierApi.js:102-104 | with the same options, different endpoints never share a cache key |
| CourierApi.RouteAliasesTracking | src/courierApi.js:81-104 | the route of `n` and the tracking data of `n + "/route"` share a cache key |
| CourierApi.UsesCache | src/courierApi.js:137 | no contract of its own; `CourierApi.RequestCacheEffect` states that a request that does not use the cache leaves it unchanged |
| CourierApi.IsTruthy | src/courierApi.js:139 | no contract of its own; JavaScript truthiness of a payload; `CourierApi.FalsyCachedPayloadIsRefetched` states that a falsy cached payload is fetched again |
| CourierApi.IsFresh | src/courierApi.js:108 | no contract of its own; strictly younger than five minutes; `CourierApi.CachedData` returns only such entries, `CourierApi.ExpiryBoundary` states the boundary |
| CourierApi.IsExpired | src/courierApi.js:126 | no contract of its own; strictly older than five minutes; `CourierApi.Swept` keeps exactly the other entries, `CourierApi.ExpiryBoundary` states the boundary |
| CourierApi.CachedData | src/courierApi.js:106-113 | a lookup hits exactly when the key is present and younger than 5 minutes (strict), and then returns the stored payload |
| CourierApi.CacheAfterLookup | src/courierApi.js:106-113 | a hit leaves the cache unchanged; a miss or a stale entry deletes exactly that key |
| CourierApi.Swept | src/courierApi.js:123-130 | the sweep keeps exactly the entries aged at most 5 minutes, unchanged |
| CourierApi.StoreThenLookup | src/courierApi.js:106-120 | a lookup at the moment of storing returns the stored payload and changes nothing |
| CourierApi.ExpiryBoundary | src/courierApi.js:106-130 | an entry exactly 5 minutes old survives the sweep but misses on lookup |
| CourierApi.SweepPreservesLookups | src/courierApi.js:106-130 | sweeping never changes what a lookup at the same or a later instant returns |
| CourierApi.IsOk | src/courierApi.js:170 | no contract of its own; `response.ok`, a status from 200 to 299; `CourierApi.Send` states which replies return data |
| CourierApi.Failure.Message | src/courierApi.js:171 | no contract of its own; the messages of the errors an attempt throws; `CourierApi.ThreeFailuresMessage` states the text of the final rejection |
| CourierApi.AuthenticateStep | src/courierApi.js:53-78 | no contract of its own; a login replied with an error status throws, a successful one yields the body's token; `CourierApi.CourierClient.Authenticate` states the token afterwards |
| CourierApi.Send | src/courierApi.js:153-174 | one data request: a 401 drops the token and logs in again; only an ok reply with a JSON body returns data |
| CourierApi.TryOnce | src/courierApi.js:147-181 | one attempt makes at most one data request and at most two logins; without a truthy token it logs in first; with one it just sends |
| CourierApi.AttemptsCount | src/courierApi.js:147-181 | the attempt function never undoes counted requests |
| CourierApi.Attempts | src/courierApi.js:147-181 | no contract of its own; the loop body for scripted replies; `CourierApi.AttemptsCount` states that each attempt makes at most one data request and never undoes a login |
| CourierApi.RetryLoop | src/courierApi.js:146-191 | no contract of its own; the `while` loop as a recursion; `CourierApi.RetryLoopTrace`, `RetryLoopCounts`, `RetryLoopDelays`, `RetryLoopFinishes` and `RetryLoopOutcome` state its behaviour, and `CourierApi.CourierClient.MakeRequest` is proved equal to it |
| CourierApi.Backoff | src/courierApi.js:188-189 | no contract of its own; the reference schedule, `1000 * n` after the n-th attempt when it threw and was not the last; `CourierApi.RetryLoopDelays` states that the loop waits exactly this |
| CourierApi.GoesOn | src/courierApi.js:163-189 | no contract of its own; a 401 or a failure before the third attempt keeps the loop going; `CourierApi.RetryLoopFinishes` states the trace shape it defines |
| CourierApi.Finished | src/courierApi.js:146-191 | no contract of its own; a complete attempt trace; `CourierApi.RetryLoopFinishes` states that every loop run ends with one |
| CourierApi.Settled | src/courierApi.js:181-186 | no contract of its own; data resolves, a failure rejects, a last 401 resolves to `undefined`; `CourierApi.RetryLoopOutcome` states that the loop settles this way |
| CourierApi.RetryLoopTrace | src/courierApi.js:146-191 | the loop only appends to its trace and makes at most 3 attempts |
| CourierApi.RetryLoopCounts | src/courierApi.js:146-191 | at most one data request per attempt, and logins are never undone |
| CourierApi.RetryLoopDelays | src/courierApi.js:182-189 | the waits are exactly the linear backoff schedule of the thrown attempts |
| CourierApi.RetryLoopFinishes | src/courierApi.js:146-191 | the loop stops at the first success, or after the third attempt |
| CourierApi.RetryLoopOutcome | src/courierApi.js:146-191 | the outcome is decided by the last attempt alone |
| CourierApi.LoopShape | src/courierApi.js:144-191 | a whole call runs 1 to 3 attempts, waits by the backoff schedule and settles by its last attempt |
| CourierApi.LoopOutcomes | src/courierApi.js:144-191 | resolves with data exactly when the last attempt returned them; rejects exactly when the third attempt threw; resolves to `undefined` exactly when the third was a 401 followed by a successful re-login |
| CourierApi.FinishedOutcomes | src/courierApi.js:181-186 | how each kind of finished trace settles |
| CourierApi.Loop | src/courierApi.js:144-191 | no contract of its own; the loop from its start; `CourierApi.LoopShape` and `CourierApi.LoopOutcomes` state its iterations and its possible outcomes |
| CourierApi.Request | src/courierApi.js:133-192 | a cacheable request with a fresh truthy cached payload returns it without any request; any other request runs the retry loop |
| CourierApi.RequestCacheEffect | src/courierApi.js:137-179 | a non-cacheable request leaves the cache alone; a cacheable success stores its data under its key and keeps every other entry; a cacheable failure leaves only the lookup's deletion |
| CourierApi.ServedFromCache | src/courierApi.js:137-141 | no contract of its own; a cacheable request with a fresh, truthy entry; `CourierApi.Request` states that it then makes no request and changes nothing |
| CourierApi.AtMostThreeFetches | src/courierApi.js:144-191 | no call makes more than 3 data requests |
| CourierApi.ThreeFailuresSchedule | src/courierApi.js:189 | three thrown attempts wait 1000 ms, then 2000 ms |
| CourierApi.ThreeFailuresMessage | src/courierApi.js:184-186 | the rejection reads "API request failed after 3 attempts: " followed by the last error's message |
| CourierApi.RequestOutcome.ErrorMessage | src/courierApi.js:185 | no contract of its own; "API request failed after n attempts: " and the cause; `CourierApi.ThreeFailuresMessage` states the text after three failures |
| CourierApi.NetworkDownRejects | src/courierApi.js:146-191 | with a token held and every request throwing: 3 requests, no login, waits of 1000 and 2000 ms, and rejection with the third exception |
| CourierApi.AllUnauthorizedResolvesUndefined | src/courierApi.js:163-168 | every request answered 401 with logins succeeding: 3 requests, no wait, and the call resolves to `undefined` |
| CourierApi.HeldTokenIsReused | src/courierApi.js:149-151 | with a token held and no 401, the client never logs in and keeps its token |
| CourierApi.FirstAttemptLogins | src/courierApi.js:149-151 | a call makes at least its first attempt's logins |
| CourierApi.MissingTokenLogsInFirst | src/courierApi.js:149-151 | without a truthy token a call logs in at least once |
| CourierApi.UnauthorizedThenSuccess | src/courierApi.js:163-168 | a 401 then an ok reply: one login, two requests, no wait, the new token kept, and the second reply's data returned |
| CourierApi.LocationBypassesCache | src/courierApi.js:86-88 | the live-location request neither reads nor writes the cache |
| CourierApi.FalsyCachedPayloadIsRefetched | src/courierApi.js:138-141 | a fresh but falsy cached payload does not stop the network request |
| CourierApi.KnownRoute | src/courierApi.js:200-237 | no contract of its own; the four route coordinates of each known courier; `CourierApi.MockSnapshotShape` states the snapshot built on them |
| CourierApi.RouteCoordinates | src/courierApi.js:239 | no contract of its own; J&T Express's route for an unknown courier; `CourierApi.MockSnapshotShape` states that fallback |
| CourierApi.MockBase | src/courierApi.js:254-260 | no contract of its own; `CourierApi.MockSnapshotShape` states that it is the snapshot's last route point |
| CourierApi.MockRoute | src/courierApi.js:201-207 | no contract of its own; `CourierApi.MockSnapshotShape` states its four points, their order and their statuses |
| CourierApi.MockTrackingData | src/courierApi.js:239-249 | no contract of its own; `CourierApi.MockSnapshotShape` states its fields |
| CourierApi.MockRealTimeLocation | src/courierApi.js:252-270 | no contract of its own; the base position plus the oscillation, with the speed and heading given; `ParcelMap.LiveLocationCentresMap` states where the map then goes |
| CourierApi.MockSnapshotShape | src/courierApi.js:195-250 | the mock snapshot has four points, oldest first, ending at `now`, with the fixed statuses; the current location is the last point and the live base |
| CourierApi.CourierClient.constructor | src/courierApi.js:3-13 | the credentials are resolved once; there is no token and the cache is empty |
| CourierApi.CourierClient.Authenticate | src/courierApi.js:53-78 | on success the reply's token replaces the held one; on failure the held token stays and the failure is returned |
| CourierApi.CourierClient.GetCachedData | src/courierApi.js:106-113 | returns `CachedData` and leaves `CacheAfterLookup` |
| CourierApi.CourierClient.SetCachedData | src/courierApi.js:115-120 | overwrites the key's entry with the payload stamped `now` |
| CourierApi.CourierClient.CleanCache | src/courierApi.js:123-130 | the loop over the entries leaves exactly `Swept` |
| CourierApi.CourierClient.TryRequest | src/courierApi.js:147-181 | one pass of the loop body equals `TryOnce` on the held token |
| CourierApi.CourierClient.MakeRequest | src/courierApi.js:133-192 | the while loop's outcome, cache, token, counts, waits and trace equal `Request` |
| CourierApi.CourierClient.GetTrackingData | src/courierApi.js:81-83 | a cached GET of `/tracking/n`; the outcome, the cache, the token kept, the fetch and login counts and the waits are those of `Request` |
| CourierApi.CourierClient.GetRealTimeLocation | src/courierApi.js:86-88 | leaves the cache unchanged; the outcome, the token kept, the fetch and login counts and the waits are those of the retry loop from the held token |
| CourierApi.CourierClient.GetRouteData | src/courierApi.js:91-93 | a cached GET of `/tracking/n/route`; the outcome, the cache, the token kept, the fetch and login counts and the waits are those of `Request` |
| CourierApi.CourierClient.GetStatusUpdates | src/courierApi.js:96-99 | a cached GET of the updates path; the outcome, the cache, the token kept, the fetch and login counts and the waits are those of `Request` |
| RealTimeTracking.Initial | src/useRealTimeTracking.js:5-12 | no data, no location, no error, not loading or connected, no interval, no retries |
| RealTimeTracking.InitialConsistent | src/useRealTimeTracking.js:5-12 | the first render satisfies the hook's invariant |
| RealTimeTracking.Consistent | src/useRealTimeTracking.js:11-15 | no contract of its own; the invariant between events; `RealTimeTracking.RunKeepsConsistent` states that every run of events keeps it |
| RealTimeTracking.TrackingFetched | src/useRealTimeTracking.js:21-46 | without a truthy tracking number nothing happens; otherwise the fetch ends not loading and leaves the live location and the interval untouched |
| RealTimeTracking.TrackingSuccess | src/useRealTimeTracking.js:29-32 | a success stores the snapshot, connects, clears the error and resets the retry counter |
| RealTimeTracking.TrackingFailure | src/useRealTimeTracking.js:33-42 | a failure stores the error and disconnects, keeps the old snapshot, and arms a retry only while the counter is below 3 |
| RealTimeTracking.LocationFetched | src/useRealTimeTracking.js:49-61 | the location fetch touches only the live location and the connection flag, and does nothing unless active with a truthy tracking number |
| RealTimeTracking.LocationFailureKeepsError | src/useRealTimeTracking.js:57-60 | a failed location fetch disconnects and changes nothing else, in particular not the error |
| RealTimeTracking.Failures | src/useRealTimeTracking.js:33-42 | no contract of its own; several failed tracking fetches in a row; `RealTimeTracking.FailuresArmBoundedRetries` states the timers they arm |
| RealTimeTracking.FailuresArmBoundedRetries | src/useRealTimeTracking.js:39-42 | n failures from counter c arm exactly min(c + n, 3) - c timers |
| RealTimeTracking.AtMostThreeRetriesBetweenSuccesses | src/useRealTimeTracking.js:29-42 | after a success, any run of failures arms at most 3 retries |
| RealTimeTracking.PollingStarted | src/useRealTimeTracking.js:64-75 | with an interval held nothing happens; otherwise both fetches run and one 30 s interval is registered |
| RealTimeTracking.PollingStopped | src/useRealTimeTracking.js:78-83 | clears and forgets the held interval, if any |
| RealTimeTracking.StartRegistersOneInterval | src/useRealTimeTracking.js:72-74 | starting registers exactly one new interval with a fresh handle and a 30000 ms period |
| RealTimeTracking.StartIsGuarded | src/useRealTimeTracking.js:65 | a second start while an interval is held changes nothing |
| RealTimeTracking.StopIsIdempotent | src/useRealTimeTracking.js:78-83 | after a stop no interval is held or registered, and stopping again changes nothing |
| RealTimeTracking.RemoveAt | src/useRealTimeTracking.js:41 | a fired timer leaves the pending list with only itself removed, order kept |
| RealTimeTracking.Ticked | src/useRealTimeTracking.js:72-74 | no contract of its own; `RealTimeTracking.TickOnlyFetchesLocation` states that a tick changes only the live location and the connection flag |
| RealTimeTracking.Refreshed | src/useRealTimeTracking.js:86-89 | no contract of its own; `RealTimeTracking.RefreshKeepsTimer` states that refresh runs both fetches and leaves the interval alone |
| RealTimeTracking.RetryFired | src/useRealTimeTracking.js:41 | no contract of its own; `RealTimeTracking.RetryOutlivesStop` and `RealTimeTracking.RetryFiredConsistent` state what a firing retry does |
| RealTimeTracking.TickOnlyFetchesLocation | src/useRealTimeTracking.js:72-74 | a tick touches only the live location and the connection flag |
| RealTimeTracking.RefreshKeepsTimer | src/useRealTimeTracking.js:86-89 | a refresh runs both fetches and leaves the interval alone |
| RealTimeTracking.Effect | src/useRealTimeTracking.js:92-97 | no contract of its own; `RealTimeTracking.EffectPollsIffActive` states that it polls exactly when active with a tracking number |
| RealTimeTracking.Mounted | src/useRealTimeTracking.js:92-102 | no contract of its own; `RealTimeTracking.MountedConsistent` states that mounting yields a consistent state |
| RealTimeTracking.Rerendered | src/useRealTimeTracking.js:99-102 | no contract of its own; `RealTimeTracking.RerenderRestartsPolling` states that a prop change runs the cleanup, then the effect |
| RealTimeTracking.Unmounted | src/useRealTimeTracking.js:105-109 | no contract of its own; `RealTimeTracking.UnmountClearsInterval` states that no interval remains |
| RealTimeTracking.EffectPollsIffActive | src/useRealTimeTracking.js:92-97 | after the effect an interval is held exactly when the hook is active with a truthy tracking number |
| RealTimeTracking.RerenderRestartsPolling | src/useRealTimeTracking.js:99-102 | a re-render with new props first clears the old interval, then the effect decides again |
| RealTimeTracking.UnmountClearsInterval | src/useRealTimeTracking.js:105-109 | unmounting leaves no interval registered |
| RealTimeTracking.RetryOutlivesStop | src/useRealTimeTracking.js:41-83 | stopping, deactivating or unmounting does not cancel the armed retry timers |
| RealTimeTracking.TrackingFetchedConsistent | src/useRealTimeTracking.js:21-46 | the tracking fetch preserves the invariant |
| RealTimeTracking.LocationFetchedConsistent | src/useRealTimeTracking.js:49-61 | the location fetch preserves the invariant |
| RealTimeTracking.StartedConsistent | src/useRealTimeTracking.js:64-75 | starting preserves the invariant |
| RealTimeTracking.RetryFiredConsistent | src/useRealTimeTracking.js:41 | a fired retry preserves the invariant |
| RealTimeTracking.Step | src/useRealTimeTracking.js:21-109 | no contract of its own; one event of any kind; `RealTimeTracking.StepKeepsConsistent` states that each keeps the invariant |
| RealTimeTracking.Run | src/useRealTimeTracking.js:21-109 | no contract of its own; a sequence of events; `RealTimeTracking.RunKeepsConsistent` states that every sequence keeps the invariant |
| RealTimeTracking.StepKeepsConsistent | src/useRealTimeTracking.js:21-109 | every event preserves the invariant |
| RealTimeTracking.RunKeepsConsistent | src/useRealTimeTracking.js:21-109 | after any sequence of events at most one interval is registered and the counter stays at most 3 |
| RealTimeTracking.MountedConsistent | src/useRealTimeTracking.js:92-102 | every history that starts at mount stays consistent |
| RealTimeTracking.PollingHook.constructor | src/useRealTimeTracking.js:4-18 | the fields form `Initial` |
| RealTimeTracking.PollingHook.FetchTrackingData | src/useRealTimeTracking.js:21-46 | the new state is `TrackingFetched` of the old |
| RealTimeTracking.PollingHook.FetchRealTimeLocation | src/useRealTimeTracking.js:49-61 | the new state is `LocationFetched` of the old |
| RealTimeTracking.PollingHook.StartPolling | src/useRealTimeTracking.js:64-75 | the new state is `PollingStarted` of the old |
| RealTimeTracking.PollingHook.StopPolling | src/useRealTimeTracking.js:78-83 | the new state is `PollingStopped` of the old |
| RealTimeTracking.PollingHook.OnTick | src/useRealTimeTracking.js:72-74 | the new state is `Ticked` of the old |
| RealTimeTracking.PollingHook.Refresh | src/useRealTimeTracking.js:86-89 | the new state is `Refreshed` of the old |
| RealTimeTracking.PollingHook.OnRetryTimer | src/useRealTimeTracking.js:41 | the new state is `RetryFired` of the old |
| RealTimeTracking.PollingHook.RunEffect | src/useRealTimeTracking.js:92-97 | the new state is `Effect` of the old |
| RealTimeTracking.PollingHook.OnRender | src/useRealTimeTracking.js:92-102 | the new state is `Rerendered` of the old |
| RealTimeTracking.PollingHook.OnUnmount | src/useRealTimeTracking.js:99-109 | the new state is `Unmounted` of the old |
| Home.WrittenOnlyChangesItsKey | src/Home.jsx:152 | after the spread with a computed key, that key reads the new value and every other key its old one |
| Home.KeyNamedNamesFormProperties | src/Home.jsx:150-152 | a change event addresses a key exactly for the nine property names of the form, never the shipping country or the order id |
| Home.KeyNamed | src/Home.jsx:151-152 | no contract of its own; the key `[name]` addresses; `Home.KeyNamedNamesFormProperties` states which names have one |
| Home.Field | src/Home.jsx:22-51 | no contract of its own; reading one property of the form; `Home.WrittenOnlyChangesItsKey` states what a write does to it |
| Home.Written | src/Home.jsx:152 | no contract of its own; `{ ...prev, [key]: v }`; `Home.WrittenOnlyChangesItsKey` states that only that key changes |
| Home.Target | src/Home.jsx:150-153 | the key a change writes gets a value of its type: a boolean only for the checkbox |
| Home.ChangeWritesOnlyItsKey | src/Home.jsx:150-153 | every input event changes at most the field it names |
| Home.CheckboxStoresChecked | src/Home.jsx:152 | a checkbox stores `checked` and any other input stores `value` |
| Home.Changed | src/Home.jsx:150-153 | no contract of its own; `Home.ChangeWritesOnlyItsKey` states that a change writes only its key |
| Home.ContactChar | src/Home.jsx:164 | no contract of its own; the characters `/[^\d+\-\s]/g` keeps; `Home.SanitizedContact` states that the contact keeps exactly these |
| Home.Sanitized | src/Home.jsx:160-167 | no contract of its own; `Home.SanitizedTrims` and `Home.SanitizedContact` state what each field becomes |
| Home.SanitizedTrims | src/Home.jsx:160-167 | name, address and notes are the trims of their inputs; the email is trimmed, has no capitals, and is the trimmed input mapped through `LowerChar` position by position; the other fields are kept |
| Home.SanitizedContact | src/Home.jsx:164 | the contact holds only digits, `+`, `-` and whitespace; it is a subsequence of the trimmed input that contains every such character of it, and its length plus the number of removed characters is the trimmed input's length |
| Home.ContactSanitisingIsNotIdempotent | src/Home.jsx:164 | sanitising a sanitised contact can change it: removing a letter can expose whitespace at the front |
| Home.Refusal.Alert | src/Home.jsx:171-179 | no contract of its own; the three alert texts; `Home.HomePage.HandleSubmit` states which one a refused submission shows |
| Home.HasRequired | src/Home.jsx:170 | no contract of its own; all six required fields are non-empty; `Home.ValidationOrder` states that it is the first check |
| Home.Validate | src/Home.jsx:170-181 | no contract of its own; `Home.ValidationOrder` states each refusal exactly under its condition, in the code's order |
| Home.ValidationOrder | src/Home.jsx:170-181 | a missing required field is reported before the phone check, and the phone check before the privacy agreement |
| Home.TrackingPrefix | src/Home.jsx:201 | the tracking number's prefix is non-empty and ends with `-` |
| Home.TrackingPrefixCharacters | src/Home.jsx:201 | the prefix has no whitespace and no lower-case letter; the characters before `-` come from the upper-cased courier |
| Home.TrackingPrefixOfOneWord | src/Home.jsx:201 | a courier name without whitespace gives its upper-cased self followed by `-` |
| Home.OrderId | src/Home.jsx:200 | no contract of its own; `Home.NewOrderShape` states that it is `ORD-` followed by the clock's decimal digits |
| Home.OrderIdInjective | src/Home.jsx:200 | orders submitted at different clock values get different ids |
| Home.NewOrder | src/Home.jsx:199-214 | no contract of its own; `Home.NewOrderShape` states its id, status, tracking number, details and timestamps |
| Home.NewOrderShape | src/Home.jsx:199-214 | the id is `ORD-` followed by the clock's digits; status `Packing`; the courier's prefix before the random suffix; the sanitised details; exactly the `submitted` and `packing` timestamps |
| Home.TrackerLinkId | src/Home.jsx:439 | an id starting with `ORD-` loses that prefix; an id without `ORD-` is unchanged |
| Home.Submitted | src/Home.jsx:156-224 | no contract of its own; `Home.SubmissionOutcome` states that a refusal stores nothing and an acceptance appends exactly one clean record |
| Home.CleanDetails | src/Home.jsx:160-181 | no contract of its own; what a record that passed the checks holds; `Home.SubmissionOutcome` states that every appended record satisfies it |
| Home.SubmissionOutcome | src/Home.jsx:156-228 | a refused form stores nothing; an accepted one appends exactly one record with that id and keeps the unsanitised form plus the id |
| Home.TriggerAllIdempotent | src/Home.jsx:137-147 | all nine sections are revealed, the buy form is left as it was, and a second call changes nothing |
| Home.TriggeredAll | src/Home.jsx:137-147 | no contract of its own; `Home.TriggerAllIdempotent` states that it reveals the nine sections, keeps the buy form and is idempotent |
| Home.HomePage.constructor | src/Home.jsx:22-51 | an empty form with courier "J&T Express", every section hidden, the stored orders loaded |
| Home.HomePage.HandleChange | src/Home.jsx:150-153 | the form becomes `Changed(old form, event)` |
| Home.HomePage.HandleSubmit | src/Home.jsx:156-228 | a refusal shows its alert and changes nothing; an acceptance stores the record, sets the form's id and shows the confirmation |
| Home.HomePage.TriggerAll | src/Home.jsx:137-147 | the sections become `TriggeredAll` of the old |
| Home.HomePage.HandleTimeUpdate | src/Home.jsx:106-115 | the sections are revealed only on the first time halfway is reached |
| Home.HomePage.HandleEnded | src/Home.jsx:118-134 | the end of the video always reveals the sections |
| Home.HomePage.OpenBuyForm | src/Home.jsx:259-269 | only the buy form is shown; the other sections keep their state |
| Home.HomePage.CancelBuyForm | src/Home.jsx:432 | hides the buy form and keeps what was typed |
| Home.HomePage.CloseConfirmation | src/Home.jsx:440 | hides the form, clears the confirmation and resets the form |
| ShippingTracker.NormalizeOrderId | src/ShippingTracker.jsx:55-58 | the normalised id always starts with `ORD-` |
| ShippingTracker.NormalizedIsTrimmed | src/ShippingTracker.jsx:55-58 | the normalised id has no whitespace at either end |
| ShippingTracker.NormalizeIdempotent | src/ShippingTracker.jsx:55-58 | normalising twice equals normalising once |
| ShippingTracker.NormalizeCases | src/ShippingTracker.jsx:55-58 | an id typed with or without `ORD-`, with surrounding whitespace, normalises to the same id |
| ShippingTracker.DigitsGetPrefix | src/ShippingTracker.jsx:56-58 | bare digits get `ORD-` put in front |
| ShippingTracker.LinkRoundTrip | src/Home.jsx:439 | the confirmation link's id normalises back to the order's id |
| ShippingTracker.FirstWithId | src/ShippingTracker.jsx:62 | `find` returns a position exactly when some order has the id, and that order has it |
| ShippingTracker.FirstWithIdIsFirst | src/ShippingTracker.jsx:62 | no earlier order has the id |
| ShippingTracker.Describe | src/ShippingTracker.jsx:79-97 | no contract of its own; `ShippingTracker.DefaultRowIffUnknown` and `ShippingTracker.CourierNamedInTransit` state its rows |
| ShippingTracker.KnownStatus | src/ShippingTracker.jsx:79-93 | no contract of its own; the five statuses with their own row; `ShippingTracker.DefaultRowIffUnknown` states that only the others get the default |
| ShippingTracker.DefaultRowIffUnknown | src/ShippingTracker.jsx:79-97 | a status gets the `Unknown`/`Pending` row exactly when it is none of the five known ones |
| ShippingTracker.CourierNamedInTransit | src/ShippingTracker.jsx:82-87 | the location names the courier exactly for `Courier` and `Road Map` |
| ShippingTracker.Search | src/ShippingTracker.jsx:50-108 | no contract of its own; `ShippingTracker.SearchOutcome` states the not-found error and the description of the first matching order |
| ShippingTracker.Describes | src/ShippingTracker.jsx:99-107 | no contract of its own; the result object copied from an order; `ShippingTracker.SearchOutcome` states that a found result describes the first matching order |
| ShippingTracker.SearchOutcome | src/ShippingTracker.jsx:50-108 | a search fails with "Order not found" exactly when no stored order has the normalised id; otherwise it shows the first such order with its status row |
| ShippingTracker.IsRealTimeActive | src/ShippingTracker.jsx:24 | live tracking is on exactly when the shown status is `Road Map` |
| ShippingTracker.HookTrackingNumber | src/ShippingTracker.jsx:32 | the hook gets the shown result's tracking number, or none |
| ShippingTracker.RealTimeOnlyOnTheRoad | src/ShippingTracker.jsx:24-32 | after a search, live tracking is on exactly when the found order's status is `Road Map` |
| ShippingTracker.TrackerPage.constructor | src/ShippingTracker.jsx:18-20 | an empty box, no result, no error |
| ShippingTracker.TrackerPage.PerformSearch | src/ShippingTracker.jsx:50-108 | the result and error shown are those of `Search` |
| ShippingTracker.TrackerPage.TypeSearchId | src/ShippingTracker.jsx:137 | only the box changes |
| ShippingTracker.TrackerPage.HandleSearch | src/ShippingTracker.jsx:110-113 | searches for the box's text |
| ShippingTracker.TrackerPage.OnSearchParams | src/ShippingTracker.jsx:35-48 | a non-empty `id` parameter fills the box and is searched; none or an empty one changes nothing |
| AdminDashboard.FilteredIsConjunction | src/AdminDashboard.jsx:41-57 | the shown list is the stored list filtered by status AND search term, in order; an empty filter matches everything; the search ignores case on id and name |
| AdminDashboard.StatusMatches | src/AdminDashboard.jsx:44-46 | no contract of its own; `AdminDashboard.FilteredIsConjunction` states the status filter through it |
| AdminDashboard.SearchMatches | src/AdminDashboard.jsx:48-53 | no contract of its own; `AdminDashboard.FilteredIsConjunction` states the search filter through it |
| AdminDashboard.Filtered | src/AdminDashboard.jsx:41-57 | no contract of its own; `AdminDashboard.FilteredIsConjunction` states that it is one filter by status AND search, in order |
| AdminDashboard.StatusKey | src/AdminDashboard.jsx:70 | no contract of its own; `AdminDashboard.StatusKeyForTwoWords`, `RoadMapKey` and `StatusKeyForOneWord` state the keys it gives |
| AdminDashboard.StatusKeyForTwoWords | src/AdminDashboard.jsx:70 | a status of two words separated by one space is keyed by their lower-cased concatenation |
| AdminDashboard.RoadMapKey | src/AdminDashboard.jsx:70 | "Road Map" is keyed "roadmap" |
| AdminDashboard.StatusKeyForOneWord | src/AdminDashboard.jsx:70 | a status without a space is keyed by itself lower-cased |
| AdminDashboard.LowerAroundSpace | src/AdminDashboard.jsx:70 | lower-casing a two-word status lower-cases each word and keeps the space between |
| AdminDashboard.LowerAddsNoSpace | src/AdminDashboard.jsx:70 | lower-casing a word without a space gives no space |
| AdminDashboard.FirstSpaceRemoved | src/AdminDashboard.jsx:70 | `replace(' ', '')` removes the first space, the one after the first word |
| AdminDashboard.IndexOfFirstOccurrence | src/AdminDashboard.jsx:70 | the first occurrence of a character follows a prefix that lacks it |
| AdminDashboard.NoCharNoContains | src/AdminDashboard.jsx:70 | a string without the character does not contain it, so `replace` changes nothing |
| AdminDashboard.Updated | src/AdminDashboard.jsx:67-75 | no contract of its own; `AdminDashboard.StatusUpdateTouchesOnlyItsOrder` states the new status and the one timestamp added |
| AdminDashboard.StatusUpdated | src/AdminDashboard.jsx:66-78 | the update keeps the list's length |
| AdminDashboard.StatusUpdateTouchesOnlyItsOrder | src/AdminDashboard.jsx:66-78 | an order with the id gets the new status and one more timestamp under the status key, keeping the others; every other order is unchanged |
| AdminDashboard.StatusUpdateKeepsIds | src/AdminDashboard.jsx:66-78 | ids stay in place, so a later lookup by id finds the same position |
| AdminDashboard.StatsOf | src/AdminDashboard.jsx:146-180 | no contract of its own; the four counts above the table; `AdminDashboard.StatsAddUp` states how they relate |
| AdminDashboard.StatsAddUp | src/AdminDashboard.jsx:146-180 | active plus delivered equals total, and pending is at most active |
| AdminDashboard.Dashboard.Synced | src/AdminDashboard.jsx:41-57 | no contract of its own; the table shows the stored list through both filters; every handler of `AdminDashboard.Dashboard` re-establishes it |
| AdminDashboard.Dashboard.constructor | src/AdminDashboard.jsx:18-23 | empty lists, no filters, loading, nothing being updated |
| AdminDashboard.Dashboard.ApplyFilters | src/AdminDashboard.jsx:41-57 | the shown list becomes `Filtered` of the current orders and filters |
| AdminDashboard.Dashboard.LoadOrders | src/AdminDashboard.jsx:26-38 | the stored orders are loaded and shown filtered, and loading ends |
| AdminDashboard.Dashboard.SetFilterStatus | src/AdminDashboard.jsx:191 | the status filter is set and the shown list is refiltered |
| AdminDashboard.Dashboard.SetSearchId | src/AdminDashboard.jsx:205 | the search term is set and the shown list is refiltered |
| AdminDashboard.Dashboard.UpdateOrderStatus | src/AdminDashboard.jsx:60-83 | the orders and the storage become `StatusUpdated`, the shown list is refiltered, and no update is pending |
| AuthContext.FindUser | src/AuthContext.jsx:92-95 | `find` returns a position exactly when some account matches, and that account matches |
| AuthContext.FindUserIsFirst | src/AuthContext.jsx:92-95 | no earlier account matches |
| AuthContext.Matches | src/AuthContext.jsx:92-95 | no contract of its own; email equal ignoring case, password equal exactly; `AuthContext.FindUser` finds the first account that satisfies it |
| AuthContext.SessionUserOf | src/AuthContext.jsx:103-107 | no contract of its own; `AuthContext.LoginOutcome` states that the session keeps the email, name and role and no password |
| AuthContext.Login | src/AuthContext.jsx:87-115 | no contract of its own; `AuthContext.LoginOutcome` states when it succeeds and what session it grants |
| AuthContext.LoginOutcome | src/AuthContext.jsx:87-115 | a login succeeds exactly when a built-in account matches email (ignoring case) and password; the session carries that account's email, name and role, stamped `now`; otherwise "Invalid email or password" |
| AuthContext.AdminLogsInIgnoringCase | src/AuthContext.jsx:92-95 | the admin logs in under any casing of its email, with the admin role |
| AuthContext.NewAccountsCannotLogIn | src/AuthContext.jsx:92-95 | an email that no built-in account has never logs in, whatever signup stored |
| AuthContext.Expired | src/AuthContext.jsx:63 | no contract of its own; `AuthContext.ExpiryIsStrict` states the strict 24-hour boundary |
| AuthContext.ExpiryIsStrict | src/AuthContext.jsx:63 | a session exactly 24 hours old is still valid; one older is expired |
| AuthContext.EmailTaken | src/AuthContext.jsx:144 | no contract of its own; `users.some`; `AuthContext.SignupOutcome` states the refusal it causes |
| AuthContext.Signup | src/AuthContext.jsx:136-155 | no contract of its own; `AuthContext.SignupOutcome` states that a taken email is refused and anything else is appended |
| AuthContext.SignupOutcome | src/AuthContext.jsx:136-155 | a taken email is refused with "User with this email already exists" and nothing stored; otherwise the account is appended |
| AuthContext.SignupEmailIsCaseSensitive | src/AuthContext.jsx:144 | an account whose email differs only in case is accepted as new |
| AuthContext.WithMockUsers | src/AuthContext.jsx:28-34 | a missing list is replaced by the built-in accounts; an existing one is kept |
| AuthContext.InitializeIdempotent | src/AuthContext.jsx:28-34 | initialising twice equals initialising once |
| AuthContext.HasRole | src/AuthContext.jsx:157-159 | true exactly when a user is logged in with that role |
| AuthContext.IsAuthenticated | src/AuthContext.jsx:161-163 | true exactly when a user is logged in |
| AuthContext.RoleImpliesAuthenticated | src/AuthContext.jsx:157-163 | holding a role implies being logged in |
| AuthContext.AtMount | src/AuthContext.jsx:46-48 | no contract of its own; no user, loading, and the stored session; `AuthContext.MountOutcome` states where mounting goes from it |
| AuthContext.AfterMount | src/AuthContext.jsx:51-78 | no contract of its own; `AuthContext.MountOutcome` states the outcome for an expired, an unparsable and a fresh session |
| AuthContext.MountOutcome | src/AuthContext.jsx:51-78 | a fresh session restores its user and ends loading; an unparsable one is dropped and loading ends; an expired one is removed but loading stays on |
| AuthContext.AuthProvider.constructor | src/AuthContext.jsx:46-48 | no user and loading, with the given storage |
| AuthContext.AuthProvider.InitializeMockUsers | src/AuthContext.jsx:28-34 | the stored list becomes `WithMockUsers` of the old |
| AuthContext.AuthProvider.Logout | src/AuthContext.jsx:121-124 | the stored session and the user are cleared |
| AuthContext.AuthProvider.Mount | src/AuthContext.jsx:51-78 | user, loading and session become `AfterMount` of the old, after the built-in accounts are ensured |
| AuthContext.AuthProvider.LogIn | src/AuthContext.jsx:87-115 | on success the session is stored and the user set; on failure nothing changes and the error is returned |
| AuthContext.AuthProvider.SignUp | src/AuthContext.jsx:136-155 | the stored list (empty when absent) is checked and extended as `Signup` says; a refusal returns its message |
| ProtectedRoute.Guard | src/ProtectedRoute.jsx:9-40 | no contract of its own; `ProtectedRoute.GuardDecides` states each view exactly under its condition |
| ProtectedRoute.GuardDecides | src/ProtectedRoute.jsx:9-40 | loading shows the spinner whatever else; otherwise a visitor is redirected to `/login`, replacing history and carrying the location; a wrong role is denied; everyone else sees the page; each view exactly in its case |
| ProtectedRoute.ExpiredSessionLoadsForever | src/ProtectedRoute.jsx:9-19 | after mounting with an expired session, the guard shows the loading view |
| ProtectedRoute.FreshSessionReachesPage | src/ProtectedRoute.jsx:21-40 | after mounting with a fresh session, the page is shown for the session's own role or no role |
| Signup.WithField | src/Signup.jsx:48-54 | the input named by `name` takes the value; other names change nothing |
| Signup.LastEditWins | src/Signup.jsx:48-54 | a second edit of the same input overrides the first |
| Signup.Check | src/Signup.jsx:69-80 | "Passwords do not match" exactly on a mismatch; "Password must be at least 6 characters" exactly for a matching password of fewer than 6 UTF-16 code units; no error otherwise |
| Signup.CheckOrder | src/Signup.jsx:69-80 | a mismatch is reported before the length check; six code units pass |
| Signup.AstralPasswordLength | src/Signup.jsx:76 | three characters above U+FFFF are six code units and pass the length check; five ASCII letters do not |
| Signup.UserData | src/Signup.jsx:84-89 | the account carries email, password, role and name, and drops the confirmation |
| Signup.RedirectFor | src/Signup.jsx:100 | `/admin` exactly for the admin role, `/` otherwise |
| Signup.ErrorText | src/Signup.jsx:105 | the error's own message when non-empty, else the fallback; never empty |
| Signup.SignupPage.constructor | src/Signup.jsx:30-39 | an empty form with role `user`, no messages, not loading |
| Signup.SignupPage.HandleChange | src/Signup.jsx:48-54 | the form becomes `WithField` of the old |
| Signup.SignupPage.HandleSubmit | src/Signup.jsx:61-110 | loading ends false on every path; a failed check, signup or login shows its message and leaves what came after it untouched; success stores the account and session and schedules the redirect by role |
| Signup.NewAccountShowsLoginError | src/Signup.jsx:92-95 | a new email signs up, then fails to log in with "Invalid email or password" |
| ParcelMap.StatusIcon | src/ParcelMap.jsx:24-30 | no contract of its own; the five status colours; `ParcelMap.MarkerColor` states that exactly the listed statuses get their own |
| ParcelMap.MarkerColor | src/ParcelMap.jsx:98 | the five listed statuses get their own colour; any other status gets grey `#cccccc` |
| ParcelMap.MockStatusesHaveIcons | src/ParcelMap.jsx:24-30 | every status of the mock route has its own icon |
| ParcelMap.Focus | src/ParcelMap.jsx:36-45 | a live location centres the map on itself at zoom 15; else a non-empty route centres it on its last point at zoom 13; else centre and zoom stay |
| ParcelMap.FocusZooms | src/ParcelMap.jsx:34-45 | the zoom is always one of 12, 15 and 13, and stays the same only in the listed cases |
| ParcelMap.RoutePoints | src/ParcelMap.jsx:66 | the route's coordinates, same length and order; empty without data |
| ParcelMap.RouteMarkers | src/ParcelMap.jsx:94-106 | one marker per route point, at its coordinates, coloured by its status |
| ParcelMap.LiveMarker | src/ParcelMap.jsx:111-115 | the live marker sits at the live coordinates in red `#ff4757` |
| ParcelMap.Render | src/ParcelMap.jsx:47-160 | loading wins over the error; a non-empty error replaces the map; otherwise the map at the chosen centre and zoom, with a line only for more than one point, the route markers, the live marker when there is a live location, and the status panel when there is data |
| ParcelMap.MockSnapshotDrawsRoute | src/ParcelMap.jsx:36-98 | the mock snapshot is drawn as a four-point line, centred on its last point at zoom 13, with coloured markers |
| ParcelMap.LiveLocationCentresMap | src/ParcelMap.jsx:36-39 | after the effect runs with a live location, the map shown is centred on it at zoom 15 with the live marker on the centre |
| ParcelMap.MapView.constructor | src/ParcelMap.jsx:33-34 | centred on Manila [14.6091, 121.0223] at zoom 12 |
| ParcelMap.MapView.OnPropsChange | src/ParcelMap.jsx:36-45 | centre and zoom become `Focus` of the old ones |
| ParcelMap.MapView.View | src/ParcelMap.jsx:47-160 | loading and error views replace the map; a map shown sits at the centre and zoom the effect last chose, with one marker per route point and a live marker exactly when a live location is given |
| AddressSelector.RegionsOf | src/AddressSelector.jsx:14-17 | no contract of its own; the database's regions of a country; `AddressSelector.Selector.Regions` states when the selector lists them |
| AddressSelector.CitiesOf | src/AddressSelector.jsx:20-23 | no contract of its own; the database's cities of a region; `AddressSelector.Selector.Cities` states when the selector lists them |
| AddressSelector.Find | src/AddressSelector.jsx:33-50 | `find` returns the first position satisfying the test, or none when no element does |
| AddressSelector.WithCode | src/AddressSelector.jsx:33-42 | finds a listed place with the ISO code exactly when one exists |
| AddressSelector.WithName | src/AddressSelector.jsx:50 | finds a listed city with the name exactly when one exists |
| AddressSelector.WithCodeIsFirst | src/AddressSelector.jsx:33-42 | among places sharing a code, the first is chosen |
| AddressSelector.Selector.constructor | src/AddressSelector.jsx:4-8 | an empty address and nothing selected, with the callbacks the parent passed |
| AddressSelector.Selector.Valid | src/AddressSelector.jsx:31-53 | no contract of its own; the cascade: a chosen region belongs to the chosen country, a chosen city to the chosen region; every handler keeps it |
| AddressSelector.Selector.Regions | src/AddressSelector.jsx:14-17 | no regions without a country; otherwise the country's regions |
| AddressSelector.Selector.Cities | src/AddressSelector.jsx:20-23 | no cities unless both a country and a region are chosen |
| AddressSelector.Selector.HandleAddressChange | src/AddressSelector.jsx:25-29 | only the address changes; it is forwarded exactly when the callback was given |
| AddressSelector.Selector.HandleCountryChange | src/AddressSelector.jsx:31-38 | the first country with the code, or none; region and city cleared; the code is forwarded exactly when the callback was given; the cascade invariant holds |
| AddressSelector.Selector.HandleRegionChange | src/AddressSelector.jsx:40-46 | the first listed region with the code, or none; city cleared; country kept; forwarded exactly when the callback was given |
| AddressSelector.Selector.HandleCityChange | src/AddressSelector.jsx:48-53 | only the city changes, to the first listed city with the name or none; forwarded exactly when the callback was given |

## Left out

The inputs and the environment:
- Timers are explicit events: the 10-minute cache sweep, the 30 s poll and the 5 s retry timers. The simulated delays of 500, 800 and 1000 ms are left out, and so are the 100 ms auto-search timeout and the 1500 ms signup redirect, which becomes a pending `navigation`.
- The clock is an integer `now`. ISO time strings and the random tracking suffix are opaque parameters.
- The sine oscillation and random speed and heading of the mock live location are parameters.
- Coordinates are `real` values that are only passed along.
- `JSON.parse`/`JSON.stringify` of storage are left out: stored lists are fields. A stored session is either parsed or unparsable.
- `fetch`, headers and JSON bodies are scripted replies, not a network client.
- The options text in a cache key renders only the `method` option, the one the code reads.
- `isValidPhoneNumber` from the phone-number library is a parameter.
- Signup.SignupPage.HandleSubmit: the browser's constraint validation is not modelled. Signup.jsx marks name, email, password and confirmation `required` (lines 129, 143, 157, 172), the email `type="email"` (line 137) and the password `minLength={6}` (line 158). A browser blocks the submit event on a form that fails these checks, before `handleSubmit` runs. The model is the handler as reached, so it accepts an empty name or email. The same holds for the `type="email"` field of Home.jsx:410 and the `required` search box of ShippingTracker.jsx:140.
- The place database of `country-state-city` is the `Catalog` parameter.
- Console logging is left out.

Behaviour not modelled:
- Async interleaving is left out. Every fetch is one atomic step.
  - Within `startPolling` and `refresh`, the location fetch is applied before the tracking fetch, because the tracking mock awaits 500 ms and the location mock does not.
  - A fetch that completes after its hook was stopped or unmounted is modelled as completing; the code has no guard against it.
- RealTimeTracking.Run: events after an `Unmount` still change the modelled state. React discards state updates on an unmounted component, and the model does not capture that.
- Home: `logAnalyticsEvent` appends to a separate analytics list, which the model does not keep.
- Home: the share buttons, the video's metadata logging and the poster reload in `handleEnded` are left out.
- Home: whether playback reached halfway is a boolean parameter of `HandleTimeUpdate`, because the float halfway test is left out.
- Home: the catch branch of `handleSubmit` (lines 225-228) is left out, because nothing in the modelled try block throws.
- Home: `handleChange` events for inputs other than the form's fields are left out.
- ShippingTracker: the polling hook's `courierApi` is created once, by `useRef`, with the courier of the first render. The model does not capture this.
- ShippingTracker: `hoursSince` (lines 70-72) is computed and never used.
- AdminDashboard: `formatDate`, the status CSS classes and the tracker links are presentation only.
- AdminDashboard.Dashboard.UpdateOrderStatus: the 500 ms await is one atomic step. In the source, two status changes begun within 500 ms each map the `orders` their own render captured (AdminDashboard.jsx:60-81). The later `setOrders` and `localStorage.setItem` then discard the earlier change, and the first call to finish clears `updatingOrderId` while the other is still pending. The model does not capture that lost update.
- The "J&T Express" tracking prefix is not shown as a concrete lemma. The general `Home.TrackingPrefixOfOneWord` shows it for every single-word courier name.
- Home.TrackingPrefix: the case of a courier name with inner whitespace is stated by `Home.TrackingPrefixCharacters` as character properties rather than as an equation.
- Text.Lower and Text.Upper: only ASCII letters are mapped, not the full Unicode case tables.
- ParcelMap: the tile layer, the legend, the popups' date formatting and the speed's `toFixed(1)` are presentation only.
- ParcelMap.MapView.View: `center` and `zoom` of `MapShown` are the props handed to react-leaflet's `MapContainer`, which reads them only when it mounts. The 30 s poll fetches only the location, so `isLoading` does not toggle and the map is not remounted. The model records the props, as `ParcelMap.LiveLocationCentresMap` does, not the centre the mounted map displays.
- src/App.jsx (the route table), src/Login.jsx, the three policy pages and vite.config.js are not part of this model.

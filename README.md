# Character fights: a verified model of the rating, matchmaking, drawing and submission logic

The application lets visitors draw characters, submit them, and vote in
head-to-head fights. Each vote updates both fighters' Elo ratings. This
project models the logic behind that, written in Dafny:

- **Elo update** (`elo.dfy`, `fight_route.dfy`). This covers the rating
  library's `ensureRow` and `applyElo` on mutable rows, and the
  `POST /api/fight` route. The route checks its ids, defaults K to 32, fills a
  row map from the fetched rows, and falls back to `{1000, 0, 0}` for a
  missing row. It then computes the update, the upsert payload and the
  response.
- **King-of-the-hill matchmaker** (`fight_page.dfy`). The fight page's
  Fisher-Yates shuffle works on an array. The page's state is a `Session`
  class with these fields:
  - the pool, the two slots and the challenger queue;
  - the done flag, the error message and the ratings map;
  - the animation flag.

  Its methods are the load effect, `nextChallenger`, the two vote handlers,
  the end of the animation timer, and the arrival of the server's reply.
- **Stroke editor** (`draw_canvas.dfy`). The drawing component's state
  machine is an `Editor` class. Its strokes, stroke in progress, drawing
  flag, last point, brush, colour and name are changed by these handlers:
  - pointer down, move and up/leave;
  - undo and clear;
  - the guarded save;
  - the toolbar buttons and the name input.
- **Submission and quota** (`characters_route.dfy`, `quota_route.dfy`,
  `client_ip.dfy`, `js_string.dfy`). `POST /api/characters` checks, in
  order, the name, its length, the PNG data-URL prefix, the size cap and the
  daily count. It then issues its storage writes and answers with
  `remaining`. `GET /api/quota` computes `used`, `remaining` and `limit`.
  Both routes take the client address from the same chain of headers.
- **Ranking** (`ranking.dfy`, `leaderboard_page.dfy`, `home_page.dfy`). The
  leaderboard and the home page fill in the default rating. They sort the
  rows highest rating first with a stable descending sort, and the
  leaderboard takes the first and last ten.

Storage (Supabase queries, uploads, public URLs) is an input to the model.
So are `randomUUID`, timestamps, `Math.random` and `fetch` results. A query
is modelled by its result or its error, and a write by its error, if any.
The expected score `1 / (1 + 10^((rb - ra) / 400))` is a parameter `e`
constrained by `Elo.IsExpectedScore`:

- it lies strictly between 0 and 1;
- `e(r, r) = 1/2`;
- `e(a, b) + e(b, a) = 1`;
- it is increasing in the first rating.

`Math.round` is `floor(x + 0.5)`. JavaScript string `length` counts UTF-16
code units, and `trim` removes the ECMAScript whitespace and line
terminators.

Three behaviours of the code are worth stating on their own:

- A vote rotates the pairing whether or not the rating call succeeds.
  `recordFight` is not awaited (src/app/fight/page.tsx:119, 133), so
  `Session.AnimationEnds` does not look at the reply. A failed call sets the
  error message (page.tsx:84-87). The page then shows an empty red
  paragraph instead of the Arena (page.tsx:158-172) and nothing clears the
  message, so a failure also ends voting (`Session.ApplyReply`,
  `Session.LeftWins`).
- A pool of N ≥ 2 fighters is done after N − 1 votes. The last vote finds
  the queue empty and sets `done` (`Session.RunLength`), after which no
  vote is accepted (`Session.DoneIsFinal`).
- The quota route reports a limit of 5. The submission route enforces 500.
  See Findings.

## Model

| member | source | states |
|---|---|---|
| JsString.Trim | src/app/api/characters/route.ts:20-23 | `trim()` is the input with its leading and trailing ECMAScript whitespace removed: a contiguous slice that neither starts nor ends with whitespace, and everything cut off before and after it is whitespace |
| JsString.TrimEmptyIffBlank | src/app/api/characters/route.ts:20 | `!name.trim()` holds exactly when the name is made of whitespace only |
| JsString.TrimIdempotent | src/components/DrawCanvas/DrawCanvas.tsx:194 | trimming a trimmed name changes nothing |
| JsString.Utf16Length | src/app/api/characters/route.ts:24 | `length` counts UTF-16 code units: between the number of characters and twice that, equal to it for text inside the Basic Multilingual Plane and larger than it once any character lies outside |
| JsString.Utf16LengthOfOne | src/app/api/characters/route.ts:24 | one character counts 2 code units when it lies outside the Basic Multilingual Plane, else 1 |
| JsString.Utf16LengthAppend | src/app/api/characters/route.ts:24 | the code-unit length of a concatenation is the sum of the two lengths |
| JsString.Split | src/app/api/characters/route.ts:31 | `split(sep)` gives at least one piece and no piece contains the separator |
| JsString.JoinSplit | src/app/api/characters/route.ts:31 | joining the pieces of `split(sep)` with `sep` gives the string back |
| JsString.SplitFirst | src/app/api/characters/route.ts:41 | the first piece is the text before the first separator; when there is a separator, the second piece is the first piece of the text after it |
| ClientIp.FirstForwarded | src/app/api/characters/route.ts:41 | a missing `x-forwarded-for` gives ""; a header without a comma gives its trimmed value; otherwise the trimmed text before the first comma; the result contains no comma and has no surrounding whitespace |
| ClientIp.FirstPiece | src/app/api/characters/route.ts:41 | the first piece of `split(",")` is the text before the first comma, or the whole header when it has none |
| ClientIp.ClientIp | src/app/api/characters/route.ts:40-44 | the address is never empty: the first non-empty one of the forwarded entry, `x-real-ip` and the request's address, else "unknown" |
| ClientIp.ForwardedForFirstEntry | src/app/api/characters/route.ts:41 | with `x-forwarded-for: <entry>,<rest>` and a non-blank entry, the address is the trimmed entry whatever the rest and the other headers are |
| ClientIp.BlankForwardedFallsThrough | src/app/api/characters/route.ts:41-42 | a blank forwarded entry falls through to a non-empty `x-real-ip` |
| ClientIp.UnknownWhenNothingSent | src/app/api/characters/route.ts:40-44 | with no usable candidate the address is "unknown" |
| Elo.Round | src/lib/elo.ts:19-20 | `Math.round(x)` is the integer n with x − 1/2 < n ≤ x + 1/2, so ties go up |
| Elo.RoundShift | src/lib/elo.ts:19-20 | rounding a whole number plus x is that number plus the rounding of x |
| Elo.EnsureRow | src/lib/elo.ts:3-6 | an absent id gets a fresh `{1000, 0, 0}` row inserted under it and returned; a present id returns its existing row and leaves the map unchanged; no other key changes |
| Elo.ApplyElo | src/lib/elo.ts:12-23 | for two distinct rows, the winner's rating becomes `round(ra + K(1 − Ea))` and the loser's `round(rb − K(1 − Ea))`, with Ea taken before the update; the winner gets one more win and the loser one more loss. When both are the same row, the second write reads the first and both counters go up |
| Elo.AppliedCounters | src/lib/elo.ts:21-22 | the winner's wins go up by exactly one and its losses stay; the loser's losses go up by exactly one and its wins stay |
| Elo.WinnerGainBounded | src/lib/elo.ts:17-19 | with K ≥ 0 the winner's rating never decreases and rises by at most `round(K)` |
| Elo.LoserLossBounded | src/lib/elo.ts:17-20 | with K ≥ 0 the loser's rating never increases and falls by at most `round(K)` |
| Elo.DefaultKBounds | src/lib/elo.ts:15-20 | with K = 32 the winner gains between 0 and 32 and the loser loses between 0 and 32 |
| Elo.NearlyZeroSum | src/lib/elo.ts:17-20 | because of rounding, the two changes add up to 0 or 1, not always 0 |
| Elo.EqualRatingsMoveBy16 | src/lib/elo.ts:15-20 | equal ratings with K = 32: the winner gains exactly 16 and the loser loses exactly 16 |
| Elo.NewcomersExample | src/lib/elo.ts:12-23 | 1000 against 1000 with the default K gives the winner 1016 with one win and the loser 984 with one loss |
| Elo.FavouriteGainsLess | src/lib/elo.ts:17-19 | with K = 32 a higher-rated winner gains at most 16 and a lower-rated winner at least 16 |
| Elo.NotIdempotent | src/lib/elo.ts:19-22 | applying the same decision twice adds two wins and two losses, so the second result differs from the first |
| FightRoute.EffectiveK | src/app/api/fight/route.ts:22 | K is the body's `k` when it is a JSON number, otherwise 32 |
| FightRoute.FillRowMap | src/app/api/fight/route.ts:33-34 | the `for` loop builds exactly the map `RowsById` of the fetched rows |
| FightRoute.RowsByIdLast | src/app/api/fight/route.ts:33-34 | an id is in the map exactly when some fetched row has it, and its entry is the last such row |
| FightRoute.MissingRowIsDefault | src/app/api/fight/route.ts:36-37 | an id with no fetched row is rated `{1000, 0, 0}`, however few rows came back |
| FightRoute.RowsByIdIgnoresOthers | src/app/api/fight/route.ts:33-34 | dropping rows of other ids changes neither whether an id is in the map nor its entry |
| FightRoute.OtherRowsIgnored | src/app/api/fight/route.ts:33-37 | fetched rows whose id is neither the winner's nor the loser's change nothing the route writes or answers |
| FightRoute.SettleReadsOnlyTheTwoRows | src/app/api/fight/route.ts:36-65 | once the rows are read, the payload and the response depend only on the two ids' effective rows |
| FightRoute.Post | src/app/api/fight/route.ts:12-65 | the handler, with its row-map loop, writes and answers exactly what the route's specification function gives |
| FightRoute.BadIdsRejectedFirst | src/app/api/fight/route.ts:18-20 | the answer is 400 exactly when an id is missing or empty or the two are equal; such a request gets 400 "Invalid winner/loser ids" with nothing written, whatever storage would do |
| FightRoute.PayloadMatchesReply | src/app/api/fight/route.ts:49-63 | the payload holds the winner with wins + 1 and the same losses and the loser with the same wins and losses + 1; the response records are the payload rows without the timestamp, plus the K used |
| FightRoute.RouteAgreesWithApplyElo | src/app/api/fight/route.ts:40-44 | the route's inline formula gives the same rows as the rating library's update of the effective rows |
| FightRoute.FirstMatchExample | src/app/api/fight/route.ts:22-65 | two ids with no rows and no K are answered 1016-1-0 and 984-0-1 with K = 32 |
| FightRoute.ReplayCountsTwice | src/app/api/fight/route.ts:49-55 | posting a stored decision again gives the winner two more wins and the loser two more losses than before the first post |
| FightPage.PickIndex | src/app/fight/page.tsx:11 | `Math.floor(r * (i + 1))` for a `Math.random()` value is an index in [0, i] |
| FightPage.Swap | src/app/fight/page.tsx:12 | the swap exchanges cells i and j and leaves every other cell alone |
| FightPage.SwapPermutes | src/app/fight/page.tsx:12 | a swap keeps the multiset of elements |
| FightPage.Shuffled | src/app/fight/page.tsx:8-15 | the shuffle keeps the length |
| FightPage.ShuffledPermutes | src/app/fight/page.tsx:8-15 | the shuffle is a permutation of its input |
| FightPage.Shuffle | src/app/fight/page.tsx:8-15 | the in-place array loop over a copy yields the shuffle specification, a permutation of the input of the same length, and the input is not changed |
| FightPage.PoolOf | src/app/fight/page.tsx:44-48 | one pool entry per fetched row, in order, with the row's id |
| FightPage.RatingsFromRows | src/app/fight/page.tsx:50-57 | the loop builds exactly the initial ratings map of the rows |
| FightPage.InitialRatings | src/app/fight/page.tsx:50-57 | every fetched character has an entry holding its rating row or `{1000, 0, 0}`; no other id has one |
| FightPage.KeysOfRatings | src/app/fight/page.tsx:50-57 | every key of the initial ratings map is the id of a fetched row |
| FightPage.FoldReplyTouchesOnlyThePair | src/app/fight/page.tsx:91-104 | a successful reply sets exactly the winner's and the loser's entries to the server's values, adding them if absent, and leaves all other entries unchanged |
| FightPage.FailureText | src/app/fight/page.tsx:84-87 | a failed reply shows the body's non-empty `error`, otherwise "Something went wrong." |
| FightPage.DecisionAcceptedAtDefaultK | src/app/fight/page.tsx:78-83 | the page's request names both ids and no K, so the route accepts it and uses K = 32 |
| FightPage.RotationKeepsEveryone | src/app/fight/page.tsx:121-142 | whichever side won, the challenger moving into the loser's slot and the loser leaving keeps every fighter's count |
| FightPage.Session.constructor | src/app/fight/page.tsx:18-29 | the page starts with an empty pool, empty slots and queue, not done, no error, an empty ratings map and no animation |
| FightPage.Session.Start | src/app/fight/page.tsx:59-65 | left is the first of the shuffled pool, right the second and the queue the rest; `done` holds exactly when there are fewer than two |
| FightPage.Session.Load | src/app/fight/page.tsx:30-67 | a failed fetch changes nothing; otherwise the ratings map comes from the rows and the pool is the shuffle, a permutation of the fetched characters, split as above |
| FightPage.Session.NextChallenger | src/app/fight/page.tsx:71-76 | an empty queue gives nothing and stays empty; otherwise the head is returned and the queue becomes its tail |
| FightPage.Session.LeftWins | src/app/fight/page.tsx:117-129 | a click can only arrive while the Arena is shown (no error message, not done, page.tsx:158-172); it is ignored, with no request, then or when a slot is empty or an animation runs; otherwise it sends "left beats right" and starts the animation |
| FightPage.Session.RightWins | src/app/fight/page.tsx:131-143 | the mirror image, with the same guards: it sends "right beats left" |
| FightPage.Session.AnimationEnds | src/app/fight/page.tsx:110-114 | at the end of the timer the winner keeps its slot and the loser's slot takes the queue's head; with an empty queue the slots stay and `done` is set; a done run stays done; the animation ends and the reply plays no part |
| FightPage.Session.Rotate | src/app/fight/page.tsx:121-142 | the challenger leaves the queue for the loser's slot, the loser is eliminated, and the run's invariant is kept |
| FightPage.Session.ApplyReply | src/app/fight/page.tsx:84-104 | a failure sets the error message, keeps the ratings and hides the Arena; a success updates the two entries and keeps the error message; `done` is untouched |
| FightPage.Session.NobodyLost | src/app/fight/page.tsx:59-76 | the two slots, the queue and the eliminated fighters together are a permutation of the pool |
| FightPage.Session.RunLength | src/app/fight/page.tsx:121-142 | a run over N ≥ 2 fighters is done exactly after N − 1 rounds, and never takes more |
| FightPage.Session.DoneIsFinal | src/app/fight/page.tsx:156-172 | a finished run has an empty queue and no Arena, so no further vote is accepted; over N ≥ 2 fighters it took N − 1 rounds |
| DrawCanvas.DropLast | src/components/DrawCanvas/DrawCanvas.tsx:168 | `slice(0, -1)` removes exactly the last stroke and keeps the others in order; on an empty list it gives the empty list |
| DrawCanvas.UndoAfterCommit | src/components/DrawCanvas/DrawCanvas.tsx:155-171 | undoing a stroke just committed gives the earlier strokes back |
| DrawCanvas.Editor.DisabledIffRefused | src/components/DrawCanvas/DrawCanvas.tsx:301-303 | the Save button is disabled exactly when the save guard fails or a save is running |
| DrawCanvas.Editor.CanSaveWhenSomethingDrawn | src/components/DrawCanvas/DrawCanvas.tsx:186-188 | since every stroke has a point, a save goes through exactly when the name is not blank and there is a committed stroke or a stroke in progress |
| DrawCanvas.Editor.constructor | src/components/DrawCanvas/DrawCanvas.tsx:32-43 | the editor starts with a size-8 white brush, no strokes, no stroke in progress, not drawing and an empty name |
| DrawCanvas.Editor.PointerDown | src/components/DrawCanvas/DrawCanvas.tsx:111-128 | a non-primary, non-touch button or a missing canvas does nothing; otherwise drawing starts with a one-point stroke in the current colour and size |
| DrawCanvas.Editor.PointerMove | src/components/DrawCanvas/DrawCanvas.tsx:130-144 | when not drawing nothing changes; while drawing the point is appended to the end of the stroke in progress, keeping its earlier points, colour and width |
| DrawCanvas.Editor.PointerUpOrLeave | src/components/DrawCanvas/DrawCanvas.tsx:146-162 | drawing stops; with a canvas, a stroke in progress is appended to the end of the strokes and the stroke in progress becomes empty |
| DrawCanvas.Editor.Undo | src/components/DrawCanvas/DrawCanvas.tsx:164-172 | the strokes become their list without the last one |
| DrawCanvas.Editor.Clear | src/components/DrawCanvas/DrawCanvas.tsx:174-180 | no committed stroke and no stroke in progress are left |
| DrawCanvas.Editor.Save | src/components/DrawCanvas/DrawCanvas.tsx:182-202 | when the guard holds, the trimmed name is submitted and the name, the strokes and the stroke in progress are reset; otherwise nothing is submitted and nothing changes |
| DrawCanvas.Editor.EditName | src/components/DrawCanvas/DrawCanvas.tsx:290-293 | the name becomes the input's value |
| DrawCanvas.Editor.SetBrushSize | src/components/DrawCanvas/DrawCanvas.tsx:209-217 | the brush becomes one of the offered sizes 4, 8 or 16 |
| DrawCanvas.Editor.SetColor | src/components/DrawCanvas/DrawCanvas.tsx:221-247 | the colour becomes one of the four offered colours |
| DrawCanvas.SubmittedNameIsTrimmed | src/components/DrawCanvas/DrawCanvas.tsx:193-196 | a submitted name is never blank and has no surrounding whitespace |
| CharactersRoute.ErrorText | src/app/api/characters/route.ts:92 | a thrown error's non-empty message is passed through unchanged; a missing or empty one gives "Server error"; never empty |
| CharactersRoute.Base64Of | src/app/api/characters/route.ts:31 | with the PNG prefix, `split(",")[1]` exists and is the text after the prefix up to the next comma |
| CharactersRoute.PrefixSplits | src/app/api/characters/route.ts:27-31 | an image with the PNG prefix splits into at least two pieces at its commas |
| CharactersRoute.Submit | src/app/api/characters/route.ts:47-89 | after validation, every failure is a 429 or a 500, and the first storage operation is the count for the caller's address |
| CharactersRoute.TooLargeIff | src/app/api/characters/route.ts:31-36 | `length * 3 / 4 > 1.5 * 1024 * 1024` holds exactly when the base64 part has more than 2097152 code units |
| CharactersRoute.NameRequiredFirst | src/app/api/characters/route.ts:20-22 | the answer is 400 "Name is required" with nothing issued exactly when the name is not a string or is blank |
| CharactersRoute.NameTooLongSecond | src/app/api/characters/route.ts:23-26 | a usable name whose trimmed form exceeds 40 code units gets 400 "Name too long (max 40)", whatever the image |
| CharactersRoute.InvalidImageThird | src/app/api/characters/route.ts:27-29 | with a usable name, an image that is not a string with the PNG data-URL prefix gets 400 |
| CharactersRoute.TooLargeFourth | src/app/api/characters/route.ts:31-36 | with a usable name and a PNG data URL, the answer is 413 exactly when the base64 part exceeds 2097152 code units |
| CharactersRoute.ValidationTouchesNoStorage | src/app/api/characters/route.ts:20-36 | a refused validation is a 400 or 413 and issues no storage operation |
| CharactersRoute.DailyLimit | src/app/api/characters/route.ts:55-57 | a count of 500 or more gets 429 "Daily submission limit reached!" after the count and nothing is written |
| CharactersRoute.Accepted | src/app/api/characters/route.ts:59-89 | a 201 stores and answers the trimmed, non-blank name of at most 40 code units; uploads `<id>.png`; counts and records the same address; and answers `remaining = 499 − count`, in [0, 500) |
| CharactersRoute.ValidatedBeforeCreated | src/app/api/characters/route.ts:20-36 | a 201 answer passed all four checks (a non-blank string name of at most 40 code units, a string image with the PNG prefix) and the rest of the route ran on the trimmed name and the base64 part |
| CharactersRoute.SubmitCreated | src/app/api/characters/route.ts:59-89 | after validation, a 201 means the count was below 500 and every write was issued in order, with `remaining = 499 − count` |
| CharactersRoute.UploadFailureStops | src/app/api/characters/route.ts:66-70 | past the daily check, a failed upload is answered 500 with its message, and only the count and the upload were issued |
| CharactersRoute.FirstSubmissionExample | src/app/api/characters/route.ts:59-87 | a first submission, with a null count, is accepted with `remaining` 499 |
| Api.Max | src/app/api/quota/route.ts:27 | `Math.max(a, b)` is one of its arguments and at least both |
| QuotaRoute.QuotaArithmetic | src/app/api/quota/route.ts:26-29 | `used` is the count or 0 when it is null; `limit` is 5; `remaining` lies in [0, 5]; used + remaining = 5 when used ≤ 5, and remaining = 0 otherwise |
| QuotaRoute.CountFailure | src/app/api/quota/route.ts:30-33 | a failed count is answered 500 with its non-empty message, or "Server error" |
| QuotaRoute.SameAddressAsSubmission | src/app/api/quota/route.ts:8-13 | the quota is counted under the same address a submission with the same headers is counted under, and an accepted submission is recorded under |
| QuotaRoute.QuotaDisagreesWithSubmission | src/app/api/quota/route.ts:4 | as written, after 5 submissions the quota reports 5 used, 0 left, limit 5, while the submission route accepts a sixth validated submission and answers `remaining` 494 |
| QuotaRoute.QuotaAgreesWithSubmission | src/app/api/quota/route.ts:26-29 | with the submission route's limit, some submission is left exactly when a validated submission whose writes succeed is accepted, and the submission's `remaining` is the quota's minus one |
| Ranking.SortDesc | src/app/leaderboard/page.tsx:27 | the sort keeps the length |
| Ranking.SortDescPermutes | src/app/leaderboard/page.tsx:27 | the sort is a permutation of its input |
| Ranking.SortDescOrdered | src/app/leaderboard/page.tsx:27 | the sort's result is non-increasing by key |
| Ranking.SortDescOfOrdered | src/app/leaderboard/page.tsx:27 | a list already in order, ties included, is left exactly as it is |
| Ranking.Slices | src/app/leaderboard/page.tsx:29-30 | `slice(0, 10)` is the first min(10, n) entries and `slice(-10)` the last min(10, n); with n ≤ 10 both are the whole list |
| Ranking.SlicesRankFirstAndLast | src/app/leaderboard/page.tsx:29-30 | in an ordered list, no entry after the top ten has a higher key than one in it, and no entry before the bottom ten has a lower key than one in it |
| LeaderboardPage.WithRating | src/app/leaderboard/page.tsx:23-26 | a row with no rating row is shown as `{1000, 0, 0}`; otherwise its own rating row is shown; the row itself is unchanged |
| LeaderboardPage.WithRatings | src/app/leaderboard/page.tsx:23-26 | one shown row per fetched row, in the same order |
| LeaderboardPage.ViewIsRanked | src/app/leaderboard/page.tsx:14-30 | `sorted` is a permutation of the shown rows, highest rating first; `top10` is its first min(10, n) entries and `bottom10` its last min(10, n) |
| LeaderboardPage.TopTenAreTheBest | src/app/leaderboard/page.tsx:27-29 | nobody outside the top ten is rated above anybody in it |
| LeaderboardPage.FailedFetchShowsNothing | src/app/leaderboard/page.tsx:12-21 | a failed fetch leaves all three lists empty |
| LeaderboardPage.NewcomersKeepTheirOrder | src/app/leaderboard/page.tsx:23-27 | two characters without rating rows both show 1000-0-0 and stay in fetch order |
| HomePage.Load | src/app/page.tsx:22-36 | when both fetches answer, an ok answer's body is kept and one that is not ok gives [] for "mine" and null for the top entry; a throw from either fetch keeps the initial [] and null |
| HomePage.Normalize | src/app/page.tsx:38-41 | a null rating row becomes `{1000, 0, 0}`, a present one is kept, and every other field is unchanged |
| HomePage.NormalizeAll | src/app/page.tsx:38-41 | normalisation keeps the list's length and order |
| HomePage.DisplayedIsRanked | src/app/page.tsx:86-87 | the displayed list is a permutation of the normalised list, sorted highest rating first |
| HomePage.FailedLoadShowsNothing | src/app/page.tsx:22-36 | a thrown fetch, or two answers that are not ok, show no own characters and no top character |

## Left out

- Storage, the network and the platform are inputs. This covers Supabase queries, inserts, upserts and uploads, `getPublicUrl`, `randomUUID`, `Date.now`/`toISOString`, `fetch`, `res.json()` and `NextResponse` framing. Outputs are kept to status, message, records and the list of storage operations issued.
- Elo.IsExpectedScore: the expected score is `Math.pow` in floating point. It is modelled as any function with the exact formula's laws, not IEEE arithmetic. Ratings and K are exact, so NaN and infinite K are not modelled.
- `Math.random` is a sequence of injected values in [0, 1). Nothing about the shuffle's distribution is modelled.
- A request body that is not JSON makes `req.json()` throw, and each route answers 500. The model starts from a parsed body.
- FightRoute: the body's ids are `Option<string>`, their declared type. A non-string JSON id (a number, say) is not modelled.
- CharactersRoute.Submit: the error of the `submissions` insert is ignored by the route, and so by the model. The 201 body holds only the id, name, image URL and `remaining`, not the other columns the insert returns.
- `GET /api/characters` is a plain query. Its rows are the input of `FightPage.Session.Load` and `LeaderboardPage.View`.
- FightPage.Session.ApplyReply: `recordFight` copies the map shallowly and then mutates the winner's and the loser's row objects in place. Those objects are also shared with the previous map, and the model treats the map's values as immutable. A `fetch` that throws leaves the state unchanged and is not a separate step.
- FightPage.Session.AnimationEnds: the 300 ms `setTimeout` is one atomic step. React's batching of state updates and concurrent votes from several visitors are not modelled.
- The fight page only logs a failed character fetch, and `Session.Load` models it as no change.
- DrawCanvas.Editor: canvas rendering and sizing are not modelled. This covers `redraw`, the DPR setup, `getCoords`, pointer capture, `clearRect` and `toDataURL`. The PNG handed to `onSave` is not modelled, and neither is `onSave` being absent. The input's `maxLength={20}` and the `onChangeClearError` callback are not modelled either.
- DrawCanvas.Editor.SetBrushSize: only the three offered sizes can be chosen, as the toolbar only offers those. The same holds for SetColor and the four colours.
- Ranking.SortDesc: the stable order of equal keys is proved only for an input already in order (`Ranking.SortDescOfOrdered`). A general stability statement is not proved.
- UI-only components, layout, the draw page's fetch wrapper, and the `my-characters` and `top-character` routes are not part of this model.

## Findings

| source | as written | input that shows it | evidently intended | confidence | as-written member | corrected member |
|---|---|---|---|---|---|---|
| src/app/api/quota/route.ts:4 | the quota route's `SUBMISSION_LIMIT_PER_24H` is 5, while the submission route enforces 500 (src/app/api/characters/route.ts:10) | an address with 5 submissions in the last 24 hours: the quota says 0 remaining, but a sixth valid submission is accepted with `remaining` 494 | the quota reports the limit the submission route enforces, so "some left" holds exactly when a submission is accepted | not executed | QuotaRoute.QuotaDisagreesWithSubmission | QuotaRoute.QuotaAgreesWithSubmission |

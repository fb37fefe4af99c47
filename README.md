# LeetCode stats card — Dafny model

This project models the card route of the leetcode-stats service. The route
answers `GET /api/card?username=…` with an SVG "stats card". It reads seven
visibility toggles from the query string. It answers 400 without a user name
and 404 when no upstream query knows the user. Otherwise it extracts the
user's numbers from the GraphQL responses and lays out the card. The card has
a header and up to four optional rows:

1. difficulty counts and activity, with a 12-week heatmap;
2. top skills;
3. monthly badges;
4. recent submissions.

The card is modelled as structured values, not as SVG text: heatmap squares
with position and colour, a layout record with row offsets and card height,
and the cells of each row.

Modules:

- `Optional`: the `Option` datatype for the responses' nullable fields.
- `Heatmap`: colour buckets, calendar lookup and the imperative
  `GenerateHeatmap`. The method is proved against the per-square function
  `SquareAt`.
- `Layout`: the imperative `currentY` accumulation `ComputeLayout`. It is
  proved equal to a closed-form `LayoutOf`, and lemmas state the height
  formula's properties.
- `CardData`: the responses as datatypes, plus the pure extraction. This
  covers the per-difficulty `find` lookups, the top-5 tag sort and cut, the
  last-5 badges reversed, the first-5 submissions and label truncation.
- `Card`: `generateSVG` as the method `GenerateCard`. It returns a `Card`
  that the predicate `CardFor` fully describes.
- `Request`: toggle parsing, the form's encoding of the toggles, the
  user-exists loop and the `GET` decision (`HandleGet`).

Inputs that the source gets from the outside world are parameters here:

- The fetched query results are a `Fetched` value.
- The clock is `keys: nat -> DayKey`. `keys(k)` holds the two calendar keys
  of the day `k` days before now: the same-second timestamp and the midnight
  timestamp.
- The parsed submission calendar is a `map<int, int>`.

## Model

| member | source | states |
|---|---|---|
| `Heatmap.Level` | src/app/api/card/route.ts:68-72 | the five fill colours are ranked 0..4, darkest first |
| `Heatmap.BucketByThresholds` | src/app/api/card/route.ts:68-72 | a count's colour rank equals how many of the thresholds 0, 2, 5, 10 it exceeds: 0 or less is empty, 1–2, 3–5, 6–10, above 10 |
| `Heatmap.BucketMonotone` | src/app/api/card/route.ts:68-72 | a larger count never gets a darker colour |
| `Heatmap.HexInjective` | src/app/api/card/route.ts:68-72 | the five buckets have five distinct fill strings |
| `Heatmap.CountOn` | src/app/api/card/route.ts:66 | a day's count is the non-zero entry under its own timestamp, else the non-zero entry under its midnight, else 0 |
| `Heatmap.GenerateHeatmap` | src/app/api/card/route.ts:38-80 | with or without a calendar, exactly 84 squares; square i is at column i/7 and row i%7 of the 12-pixel grid and is coloured by the count of the day 83−i days ago (empty without a calendar) |
| `Heatmap.SquareOnGrid` | src/app/api/card/route.ts:74-75 | every square lies at startX + 12·col, startY + 12·row with col < 12 and row < 7 |
| `Heatmap.SquaresDistinct` | src/app/api/card/route.ts:59-78 | no two of the 84 squares share a position |
| `Heatmap.OldestFirst` | src/app/api/card/route.ts:59-62 | a square further left, or higher in the same column, shows an earlier day: the oldest week is the left column |
| `Heatmap.Span` | src/app/api/card/route.ts:58-62 | the first square is 83 days back in column 0, the last is today in column 11 |
| `Heatmap.NoCalendarAllEmpty` | src/app/api/card/route.ts:41-51 | without a calendar every square is empty |
| `Heatmap.MissingDayEmpty` | src/app/api/card/route.ts:66-68 | a day under neither key is drawn empty |
| `Layout.ComputeLayout` | src/app/api/card/route.ts:150-185 | the running offset gives row1Y = 88, each next row starts after the shown rows above it, and the height is max(150, 88 + R1 + R2 + R3 + R4), where R1 = 125 or 100 (difficulty with beats, or not) when difficulty or activity is shown, R2 = R3 = 80, R4 = 20·n + 55, and 0 for each hidden row |
| `Layout.RowsOrdered` | src/app/api/card/route.ts:150-185 | 88 = row1Y ≤ row2Y ≤ row3Y ≤ row4Y ≤ cardHeight and cardHeight ≥ 150 |
| `Layout.RowsFit` | src/app/api/card/route.ts:178-185 | the submissions row ends inside the card |
| `Layout.EmptyCard` | src/app/api/card/route.ts:185 | with every row hidden the card is 150 high |
| `Layout.ShowingRowsGrows` | src/app/api/card/route.ts:155-183 | turning on a row, the beats line or listing more submissions never shrinks the card |
| `Layout.HiddenSubmissionsIgnored` | src/app/api/card/route.ts:179-183 | with the submissions row hidden, the number of submissions does not affect the layout |
| `Layout.SubmissionLineHeight` | src/app/api/card/route.ts:182 | beyond the first listed submission, each further one adds 20 to the height (the first may be partly absorbed by the 150 minimum) |
| `Layout.FullCard` | src/app/api/card/route.ts:150-185 | the card with every row and five submissions is 528 high |
| `CardData.FindCount` | src/app/api/card/route.ts:113-119 | the count of the first entry with the difficulty, 0 when there is none; non-negative when all counts are |
| `CardData.FindPercentage` | src/app/api/card/route.ts:122-124 | the percentage of the first entry with the difficulty, 0 when there is none or it is null |
| `CardData.Insert` | src/app/api/card/route.ts:131 | inserting a tag adds exactly that tag to the multiset |
| `CardData.InsertSorted` | src/app/api/card/route.ts:131 | inserting into a descending list keeps it descending |
| `CardData.SortByDescending` | src/app/api/card/route.ts:131 | the result is a permutation of the input, non-increasing by problemsSolved |
| `CardData.TopOf` | src/app/api/card/route.ts:131 | the top list has min(5, n) tags |
| `CardData.TopTags` | src/app/api/card/route.ts:127-131 | at most five tags, none without skills data, otherwise the top of fundamental ++ intermediate ++ advanced |
| `CardData.TopOfSortedSelection` | src/app/api/card/route.ts:127-131 | the top tags are sorted non-increasing and are a sub-multiset of all tags |
| `CardData.TopOfKeepsLargest` | src/app/api/card/route.ts:131 | no dropped tag has more solves than any kept one |
| `CardData.Take` | src/app/api/card/route.ts:143 | slice(0, n) is the prefix of length min(n, len) |
| `CardData.TakeLast` | src/app/api/card/route.ts:140 | slice(-n) is the suffix of length min(n, len) for n ≥ 1, and the whole sequence for n = 0 (slice(-0) is slice(0)) |
| `CardData.Reverse` | src/app/api/card/route.ts:140 | reverse puts element len−1−i at position i |
| `CardData.RecentBadges` | src/app/api/card/route.ts:139-140 | min(5, len) badges, the last badge first |
| `CardData.RecentSubmissions` | src/app/api/card/route.ts:143 | the first min(5, len) submissions, or none when the list is absent |
| `CardData.Truncate` | src/app/api/card/route.ts:312 | a label over the limit keeps its first limit−1 characters and ends with an ellipsis, length exactly the limit; a shorter one is unchanged |
| `CardData.TruncateBounded` | src/app/api/card/route.ts:312 | a truncated label is never longer than the limit or the original, and truncating twice is truncating once |
| `CardData.TagLabel` | src/app/api/card/route.ts:312 | tag names over 14 characters become 14 characters |
| `CardData.BadgeLabel` | src/app/api/card/route.ts:331 | badge names over 12 characters become 12 characters |
| `CardData.ExtractStats` | src/app/api/card/route.ts:108-147 | totalSolved = solvedEasy + solvedMedium + solvedHard; at most five tags, badges and submissions |
| `CardData.TotalSolvedNonNegative` | src/app/api/card/route.ts:117-120 | the solved total is non-negative when the reported counts are |
| `CardData.NothingFetched` | src/app/api/card/route.ts:109-147 | with every query failed, every field is fixed: all counts, percentages, streak, active days and ranking are 0, all lists empty, no calendar and an empty real name |
| `Card.TagCells` | src/app/api/card/route.ts:309-314 | one cell per top tag, 152 apart, with the truncated name and the solve count |
| `Card.BadgeCells` | src/app/api/card/route.ts:328-332 | one cell per recent badge, 152 apart, with the truncated name |
| `Card.SubmissionLines` | src/app/api/card/route.ts:346-350 | one line per recent submission, 24 apart, with its title |
| `Card.Subtitle` | src/app/api/card/route.ts:231-232 | the real name is shown exactly when it is non-empty and differs from the user name |
| `Card.GenerateCard` | src/app/api/card/route.ts:83-186 | the card holds the extracted stats, the layout for the toggles and the number of listed submissions, the ranking only when the rank toggle is on and the ranking is positive, the heatmap only with the activity panel (at x 380 beside the difficulty panel, else 0), each list row only when toggled on, and the footer 10 above the bottom |
| `Card.CardHeightBounds` | src/app/api/card/route.ts:182-185 | every rendered card is between 150 and 528 high |
| `Card.RowsHoldAtMostFive` | src/app/api/card/route.ts:131 | the skills, badges and submissions rows hold at most five entries each |
| `Request.Toggle` | src/app/api/card/route.ts:368-376 | a toggle is off exactly when its parameter is the string "false"; absent or any other value means on |
| `Request.EncodeForm` | src/app/components/StatsForm.tsx:39-49 | the form's query string carries the user name, and "false" is the only value it gives any other parameter |
| `Request.ParseOptionsByName` | src/app/api/card/route.ts:368-376 | for each of the seven parameter names, the toggle it controls is off exactly when its value is "false" |
| `Request.AllOnByDefault` | src/app/api/card/route.ts:368-376 | an empty query string turns every section on |
| `Request.FormRoundTrip` | src/app/components/StatsForm.tsx:43-49 | the route decodes the form's encoding back to the same toggles and user name |
| `Request.UserKnownInOrder` | src/app/api/card/route.ts:398-405 | the user is known exactly when some result, in fetch order, carries a matched user |
| `Request.UserExists` | src/app/api/card/route.ts:398-405 | the scan with early exit answers true exactly when some result carries a matched user |
| `Request.Decide` | src/app/api/card/route.ts:378-421 | the status is 400, 404 or 200; it is 400 exactly when the user name is missing or empty, and with a user name it is 404 exactly when no result carries a matched user |
| `Request.HandleGet` | src/app/api/card/route.ts:363-431 | 400 without a user name; otherwise 404 naming the user when no result carries a matched user; otherwise 200 with the card for the parsed toggles |
| `Request.FormRequestAccepted` | src/app/api/card/route.ts:378-421 | a form request for a non-empty name is never 400; it is 404 or 200 depending only on whether the user is known, and it renders the form's toggles |
| `Request.SubmissionsDoNotMatter` | src/app/api/card/route.ts:399-405 | the recent-submissions result never decides whether the user exists |

## Left out

- Network I/O (`fetchAllData`, route.ts:5-35) is left out. Its per-query results, `None` where a query failed, are the `Fetched` input.
- The GraphQL query texts and `fetchLeetCodeStats` (src/app/lib/leetcode-queries.ts) are left out. The `queries` object defines no `submissions` entry, although `fetchAllData` asks for one. The model takes whatever that query returns as an input.
- `Date` arithmetic, time zones and `toDateString` normalisation (route.ts:55, 61-64) are left out. They are the `keys` parameter, which gives each day's two calendar keys.
- `JSON.parse` of the calendar (route.ts:54) is left out. The calendar is already a map, and `None` stands for a missing or empty string. A string that fails to parse would throw and give the 500 response, which is not modelled.
- The 500 response (route.ts:440-455) is left out. It arises only from runtime exceptions on malformed upstream data, which the typed model cannot produce.
- Number formatting is left out: `toFixed(1)` of the beats percentages, `toLocaleString` of the ranking and `toLocaleDateString` of submission timestamps (route.ts:238, 273-275, 349). The model keeps the numbers and the timestamps as received.
- The literal SVG text is left out: gradients, logo, fonts, fixed rectangle sizes, the header and placeholder texts of empty rows, and the response headers. An empty row is an empty cell list.
- JavaScript truthiness is modelled only where the values can take it. A number field that is `0` and one that is absent both give 0. A `NaN` count is not representable.
- `CardData.Truncate`: lengths count Unicode scalar values, while JavaScript's `length` and `slice` count UTF-16 code units. Names with characters outside the Basic Multilingual Plane may therefore be cut at a different place.
- `CardData.SortByDescending`: the contract states order and permutation but not stability. The definition keeps equal-count tags in input order, as JavaScript's stable `sort` does, but no lemma states it.
- URL percent-encoding and `URLSearchParams` parsing are left out. The query string is a map from parameter name to its first value.
- `Request.HasMatchedUser`: the route's loop also looks for `matchedUser` in the recent-submissions result (route.ts:399-401). The model gives that result the shape declared at route.ts:106, which has no `matchedUser`, so that result never makes the user exist. A response that carried one anyway is not modelled.
- The React and Next.js UI (page, form state, clipboard, scrolling) is left out. Only the form's toggle encoding (StatsForm.tsx:39-49) is modelled, for the round trip.

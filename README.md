# x-actions-profile: the data shaping behind the profile cards

x-actions-profile is a GitHub Action that draws SVG cards for a GitHub profile:
- a contribution "snake";
- a statistics card;
- a "most used languages" card.

This project models the logic that turns the GitHub API's replies into what those
cards show, and proves properties of it. Each HTTP reply arrives as an
already-parsed value, so no network call is modelled.

- `Contributions` (`contributions.dfy`) covers `fetchGitHubContributions` after the reply:
  - the token check;
  - the failed-reply and GraphQL-error classification;
  - the flattening of the calendar's weeks of days into days tagged with their grid column (`x`, the week index) and row (`y`, the weekday);
  - the quantisation of `contributionLevel` to 0..4.
- `Stats` (`stats.dfy`) covers `fetchGitHubStats` after its two replies:
  - the user-reply error classification;
  - the star sum and fork count over the repository list, with their defaults;
  - the counters derived from `public_repos`.

  It also covers the structural decisions of `renderStatsCard`: option defaults, theme fallback, card height, title, border style, and the five rows with their bottom borders.
- `TopLangs` (`top_langs.dfy`) covers the language card:
  - `fetchLanguageStats`' aggregation loops over repositories and language edges. They build the `languageStats` object and register colours of newly seen languages in the module-level colour table. That table is the `colors` field of a `LanguageColors` object, and the loops are methods that update it in place.
  - `prepareLanguageData`'s top-6 selection.
  - The greedy line packing of `renderCloudLayout`, as a method with the source's two loops.
- `Wrappers` (`wrappers.dfy`) holds `Option` and `Result`.
- `Text` (`text.dfy`) holds the decimal rendering of a status in error messages.

A JavaScript object's keys keep their insertion order, and `Object.entries` and `Array.prototype.sort` depend on it. So the `languageStats` object is modelled as its key order plus a map. The sort is a stable insertion sort by non-increasing bytes, as JavaScript's stable sort is.

JavaScript truthiness is written out:
- an empty or missing string falls back;
- `x || 0` reads a missing count as 0;
- `!!r.fork` holds only for a present `true`.

Cloud widths are counted in twentieths of a pixel, so that `size * 0.65` is the integer `13 * size`:
- the line limit `cardWidth - padding * 2` is 270 px, i.e. 5400;
- the gap is 15 px, i.e. 300.

`Math.floor(n * 0.8)` and `Math.floor(n * 0.5)` are computed exactly as `8n / 10` and `5n / 10`, i.e. the floors of 4n/5 and n/2:
- `n * 0.5` is exact in doubles.
- `n * 0.8` is not always exact: `3 * 0.8` is `2.4000000000000004`. The floor is still ⌊4n/5⌋. The double for 0.8 is 0.8·(1 + 2⁻⁵⁴), slightly above 0.8.
  - When 4n/5 is an integer m, the exact product lies just above m. Rounding it to the nearest double cannot go below the double m.
  - Otherwise 4n/5 is at least 1/5 away from every integer. The relative errors (2⁻⁵⁴ in the constant, at most 2⁻⁵³ in the rounding) cannot close that gap for any count below 2⁵⁰.

## Model

| member | source | states |
|---|---|---|
| Text.Decimal | src/lib/stats/index.ts:29 | the status interpolated into a message is a non-empty string of decimal digits that denotes the status, read most significant digit first, with no leading zero unless the status is 0 |
| Contributions.Level | src/lib/snake/contributions.ts:76-81 | the level is 4, 3, 2, 1 exactly for the fourth, third, second, first quartile, and always at most 4 (every other string gives 0) |
| Contributions.Flatten | src/lib/snake/contributions.ts:70-83 | every day of the `flatMap` lies in the column of one of the weeks, with a level in 0..4 |
| Contributions.FlattenFrom | src/lib/snake/contributions.ts:70-83 | every flattened day has a level in 0..4 and a column among the indices of the weeks it came from |
| Contributions.FlattenLength | src/lib/snake/contributions.ts:70-71 | the flat list has exactly as many days as all weeks' `contributionDays` together |
| Contributions.FlattenAt | src/lib/snake/contributions.ts:70-82 | day `d` of week `w` sits at position (days of the earlier weeks) + `d`, with `x == w`, `y` its weekday, date and count copied and level quantised: order and field mapping |
| Contributions.FlattenCovers | src/lib/snake/contributions.ts:70-71 | every position of the flat list comes from some day `d` of some week `w` at that same offset, so nothing else is produced |
| Contributions.CalendarWeeks | src/lib/snake/contributions.ts:68 | the weeks are the calendar's when every link of `data.user.contributionsCollection.contributionCalendar.weeks` is present, and empty otherwise |
| Contributions.QueryError | src/lib/snake/contributions.ts:60-66 | errors raise exactly when the list is present and non-empty; the first error's `NOT_FOUND` type gives "User '<name>' not found", otherwise its message, or the fallback when the message is empty or missing |
| Contributions.FetchGitHubContributions | src/lib/snake/contributions.ts:18-83 | an empty token fails with the token error; otherwise a non-ok reply fails with its status and body; an ok reply fails exactly when its error list is non-empty, with the error `QueryError` classifies (not found, message or fallback); a success is the flattened calendar, every level in 0..4 |
| Contributions.TokenCheckedFirst | src/lib/snake/contributions.ts:18-20 | with an empty token the result is 'GITHUB_TOKEN is required' whatever the reply |
| Contributions.MissingCalendarIsEmpty | src/lib/snake/contributions.ts:68 | a reply without errors whose data, user, collection, calendar or weeks is missing yields no days |
| Contributions.FetchedDays | src/lib/snake/contributions.ts:68-83 | a successful fetch has one day per calendar day, day `d` of week `w` at its calendar position with its fields mapped |
| Stats.FoldStarsIsSum | src/lib/stats/index.ts:45 | the left-fold `reduce` from any start equals the start plus the sum of the stars, a missing count counting 0 |
| Stats.SumStarsAppend | src/lib/stats/index.ts:45 | the star sum adds up over concatenated repository lists |
| Stats.TotalStars | src/lib/stats/index.ts:45 | the `reduce` from 0 is the sum of the star counts, a missing count counting 0 |
| Stats.TotalStarsIsSum | src/lib/stats/index.ts:45 | `totalStars` adds up over concatenation, is a lone repository's count (or 0 when missing), and is 0 for no repositories |
| Stats.Forks | src/lib/stats/index.ts:46 | the filter keeps only repositories of the list whose `fork` is a present `true`, and no more of them than the list holds |
| Stats.ForksKeepsEveryFork | src/lib/stats/index.ts:46 | the filter keeps every fork as often as the list holds it, and no other repository |
| Stats.ForkCount | src/lib/stats/index.ts:46 | `contributedTo` is at most the number of repositories |
| Stats.ForkCountExtremes | src/lib/stats/index.ts:46 | the count is 0 exactly when no repository is a fork, and the list's length exactly when all are |
| Stats.ForkCountAppend | src/lib/stats/index.ts:46 | the fork count adds up over concatenated lists |
| Stats.ListedRepos | src/lib/stats/index.ts:42-44 | the repositories are the payload of an ok reply whose body is an array, and none otherwise |
| Stats.TotalPRs | src/lib/stats/index.ts:52 | the result is the floor of 4n/5 (0.8 times `public_repos`) |
| Stats.TotalIssues | src/lib/stats/index.ts:53 | the result is the floor of n/2 (0.5 times `public_repos`) |
| Stats.FetchGitHubStats | src/lib/stats/index.ts:25-55 | a non-ok user reply fails, with 'User not found' for 404 and 'GitHub API error: <status>' otherwise; an ok one succeeds with 15n commits, the PR and issue floors, the star sum and the fork count of the listed repositories, both 0 when the repository reply failed or was not an array |
| Stats.ThemeFor | src/lib/stats/index.ts:104 | a known theme name picks its own palette; the dark palette is chosen exactly for "dark" or an unknown name |
| Stats.RenderStatsCard | src/lib/stats/index.ts:71-169 | height 300 exactly when the title is hidden and 350 otherwise; a title "<name>'s GitHub Stats" exactly when not hidden; border style "none" exactly when the border is hidden, else "1px solid" and the palette's border; the theme defaults to dark; five rows with their labels and values, each but the last with a bottom border |
| Stats.DefaultCard | src/lib/stats/index.ts:69-71 | with no options the card is dark, titled, 350 high and bordered "1px solid #30363d" |
| TopLangs.QueryErrorAsWritten | src/lib/top-langs/index.ts:58-62 | as written, any present error list raises, including an empty one (a read of `type` on undefined) |
| TopLangs.QueryErrorOf | src/lib/top-langs/index.ts:58-62 | errors raise exactly when the list is present and non-empty, never as a read of undefined; `NOT_FOUND` gives "User '<name>' not found", otherwise the message or the fallback; on non-empty lists it agrees with the code as written |
| TopLangs.EmptyErrorListThrows | src/lib/top-langs/index.ts:58-59 | an empty error list throws as written and goes on to the data once guarded |
| TopLangs.RepoNodes | src/lib/top-langs/index.ts:64-65 | the repositories are `data.user.repositories.nodes` when every link is present, and none otherwise |
| TopLangs.RepoEdges | src/lib/top-langs/index.ts:67 | a repository's edges are `languages.edges` when both are present, and none otherwise, so the repository is skipped |
| TopLangs.FirstSeenNames | src/lib/top-langs/index.ts:66-75 | the object's key order lists each language named by an edge, once |
| TopLangs.BytesForAbsent | src/lib/top-langs/index.ts:73 | a language no edge names totals 0 bytes |
| TopLangs.BytesForAppend | src/lib/top-langs/index.ts:66-75 | the byte totals of the edges of separate repositories add up |
| TopLangs.EdgeColor | src/lib/top-langs/index.ts:71 | a new language's colour is its edge's non-empty colour, else '#858585' |
| TopLangs.RegisterKeepsColors | src/lib/top-langs/index.ts:70-72 | a language that already has a colour keeps it through any edges |
| TopLangs.RegisterLeavesOthers | src/lib/top-langs/index.ts:70-72 | a language no edge names keeps its entry, or its absence, in the colour table |
| TopLangs.RegisterFirstSeen | src/lib/top-langs/index.ts:70-72 | a language without a colour gets the colour of the first edge naming it |
| TopLangs.TallyStep | src/lib/top-langs/index.ts:73 | one more edge adds its size to its language's total, appending the language to the key order only when new |
| TopLangs.TalliedWellFormed | src/lib/top-langs/index.ts:63-76 | the tallied object has distinct keys in its order, and exactly the keys of its map |
| TopLangs.LanguageColors.constructor | src/lib/top-langs/index.ts:19-25 | the table starts as the twenty fixed language colours |
| TopLangs.LanguageColors.FetchLanguageStats | src/lib/top-langs/index.ts:56-76 | a non-ok reply fails with its status; an ok one fails exactly when its error list is non-empty (the corrected guard, see Findings), with the error `QueryErrorOf` classifies, leaving the colour table alone; a success has, for each language named by an edge of a repository with edges, the sum of its edges' sizes, keyed in first-seen order, and the table extended by first-seen registration |
| TopLangs.LanguageColors.TallyRepos | src/lib/top-langs/index.ts:66-75 | the outer loop totals the edges of all repositories, skipping those without edges, and registers their colours |
| TopLangs.LanguageColors.TallyEdges | src/lib/top-langs/index.ts:68-74 | the inner loop continues the totals and the registration over one repository's edges |
| TopLangs.MissingReposIsEmpty | src/lib/top-langs/index.ts:64-65 | a missing repository list leaves no edges, so the object is empty |
| TopLangs.TotalBytes | src/lib/top-langs/index.ts:80-81 | the total of the values is 0 exactly when every language has 0 bytes |
| TopLangs.InsertByBytes | src/lib/top-langs/index.ts:82 | inserting keeps every name and adds one: a permutation |
| TopLangs.SortByBytes | src/lib/top-langs/index.ts:82 | the sort keeps the same names: a permutation of the keys |
| TopLangs.SortSorted | src/lib/top-langs/index.ts:82 | the sorted keys have non-increasing bytes |
| TopLangs.SortStable | src/lib/top-langs/index.ts:82 | the sort is stable: of two distinct keys with equal bytes, the one first in insertion order comes first in the result |
| TopLangs.SortDistinct | src/lib/top-langs/index.ts:82 | distinct keys stay distinct once sorted |
| TopLangs.ColorFor | src/lib/top-langs/index.ts:85 | an item's colour is the table's non-empty colour for it, else '#858585' |
| TopLangs.PrepareLanguageData | src/lib/top-langs/index.ts:79-87 | at most six items; none when the total is 0 |
| TopLangs.PrepareShape | src/lib/top-langs/index.ts:82-86 | with a positive total the items are the first min(6, n) keys of the stable sort, with their bytes and colours, so ties are broken by insertion order |
| TopLangs.PrepareTopLanguages | src/lib/top-langs/index.ts:79-87 | with a positive total there are min(6, n) items, by non-increasing bytes, with distinct names |
| TopLangs.PrepareItemsFromStats | src/lib/top-langs/index.ts:82-86 | each item names a key of the object, with that key's bytes and colour |
| TopLangs.PrepareOmittedNotLarger | src/lib/top-langs/index.ts:82 | no language left out has more bytes than any item taken |
| TopLangs.TagWidth | src/lib/top-langs/index.ts:188-189 | a tag's estimated width is at least the gap |
| TopLangs.Tagged | src/lib/top-langs/index.ts:187-188 | the i-th language gets the i-th font configuration |
| TopLangs.NextLines | src/lib/top-langs/index.ts:190-198 | a packing step leaves at least one line |
| TopLangs.GreedyBreak | src/lib/top-langs/index.ts:190-194 | opening a new line for a tag that overflows a non-empty line keeps the packing greedy |
| TopLangs.GreedyExtend | src/lib/top-langs/index.ts:197-198 | appending a tag that fits, or to an empty line, keeps the packing greedy |
| TopLangs.GreedyStep | src/lib/top-langs/index.ts:187-199 | each step keeps the packing greedy |
| TopLangs.Pack | src/lib/top-langs/index.ts:183-199 | the packing always has at least one line |
| TopLangs.PackGreedy | src/lib/top-langs/index.ts:183-199 | the lines hold every tag once, in order; there is one empty line for no tags and no empty line otherwise; a line of two or more tags fits 270 px; and a line ends only where the next tag would overflow it |
| TopLangs.WidthsStep | src/lib/top-langs/index.ts:190-198 | the running line widths follow each packing step |
| TopLangs.PackCloudLines | src/lib/top-langs/index.ts:170-203 | the loop builds exactly the greedy packing of the tagged languages, and each final width is the line's summed tag widths less one gap |
| TopLangs.DropTrailingGaps | src/lib/top-langs/index.ts:201-203 | every width loses one gap |
| TopLangs.PreparedFitsCloud | src/lib/top-langs/index.ts:177-188 | the prepared languages never outnumber the six font configurations the cloud indexes |

## Left out

- The snake route planner, grid builder and SVG creator are only imported at src/generators/snake.ts:5-9. Their sources are not part of this model, so no planner is modelled.
- Network I/O: `fetch`, `response.ok`/`status`/`json()`/`text()`, `async`/`await`. Each reply is a parameter, already parsed.
- The `try`/`catch` in `fetchGitHubStats` only logs and rethrows, so it changes no result. Console output is not modelled.
- SVG and HTML string assembly, `toLocaleString`, `toFixed` and `parseFloat`. The stats card is modelled up to its structure, not its markup.
- Floating-point layout:
  - the percentage strings;
  - the donut geometry;
  - the horizontal bar offsets;
  - the vertical layout;
  - the cloud's vertical positions and horizontal centring.
- TopLangs.PackCloudLines: widths are exact multiples of 1/20 px. JavaScript doubles round `size * 0.65` and the running sums, which could move a break when a line lands exactly on 270 px.
- TopLangs.PackCloudLines: requires at most six languages. With more, `fontConfigs[i]` is undefined and the source throws on `config.size`. `prepareLanguageData`'s output always fits (`PreparedFitsCloud`). The exported `renderCloudLayout` has no caller in these files: src/generators/top-langs.ts renders the vertical layout.
- TopLangs.TagWidth: `|name|` counts Unicode scalar values, while JavaScript's `lang.name.length` counts UTF-16 code units. A language name with characters outside the Basic Multilingual Plane gets a smaller estimated width here than in the source.
- TopLangs.LanguageColors.FetchLanguageStats: classifies errors with the corrected `QueryErrorOf`. On an ok reply whose `errors` is an empty list it returns the data, where the code as written throws a TypeError. The as-written behaviour is `QueryErrorAsWritten` (see Findings).
- TopLangs.PrepareLanguageData: the `percentage` field is not modelled, because it is a float-formatted string.
- Property keys inherited from `Object.prototype` are not modelled. Such names, e.g. `constructor` as a language or theme name, read as truthy values in the source's lookups. Integer-like language names, which JavaScript objects list before other keys, are not modelled either: language keys are taken in insertion order.
- Stats.FetchGitHubStats: `public_repos` is a natural number. A missing or non-numeric value, which makes the counters `NaN` in the source, is not modelled.
- Repository `stargazers_count` values are natural numbers. The falsy `0` and a missing count both give 0.
- The rendering functions `renderVerticalLayout`, `renderHorizontalLayout`, `renderDonutLayout` and `renderErrorCard`, and `THEME_CONFIG`, only format markup.
- `src/index.ts` (Action inputs, directories, concurrent `Promise.all`) and `src/generators/*` (orchestration and file writes) are not modelled.
- `src/lib/snake/types-contrib.ts` only declares types. They are mirrored as datatypes in `Contributions`.

## Findings

| source | as written | input that shows it | evidently intended | confidence | as-written member | corrected member |
|---|---|---|---|---|---|---|
| src/lib/top-langs/index.ts:58-60 | `if (result.errors)` treats an empty error array as an error and reads `result.errors[0].type`, which throws a TypeError on `undefined` | an ok reply with `"errors": []` and valid data | only a non-empty error list raises (the guard `result.errors.length > 0` of src/lib/snake/contributions.ts:60), and an empty one goes on to the data | not executed; low (GraphQL servers omit `errors` rather than send it empty) | TopLangs.QueryErrorAsWritten, TopLangs.EmptyErrorListThrows | TopLangs.QueryErrorOf, TopLangs.LanguageColors.FetchLanguageStats |

# Trip search and ranking of ark-trip

This project models the trip search of the ark-trip plugin, and proves properties about that model.

The search has two halves:

- **The store side** (`src/util/search.ts`). The `city` view's map step emits every document of type `trip` under its city. The `searchlist` list function then makes one pass over the view's rows. It keeps the rows keyed by the query city and applies two hard filters: at least one requested mood must hit, and the trip's dates must lie inside the query's range. It scores every admitted trip with the fixed weights (moods 0.4, days 0.2, persons 0.2, budget 0.1, accommodations 0.1), including the workaround for a trip that hits no criterion. It collects the scored trips in scan order.
- **The plugin side** (`src/plugin.ts`). `searchTrips` splits the `city.mood…` path segment and builds the store query. It sorts a non-empty scored list by relevance, highest first, in place. When nothing scored, it falls back to all trips of the city. Either way it paginates by offset and page size, and a store error becomes a 400 reply. The query-date helper and the picture-redirect URL of the other trip routes are modelled too.

Files:

- `wrappers.dfy` holds `Option`.
- `strings.dfy` holds JavaScript's `split`/`join` on one separator character.
- `search.dfy` models `src/util/search.ts`:
  - specification functions (`CityView`, `Admitted`, `Earned`, `Possible`, `Relevance`, `Scan`) with their lemmas;
  - the list function as imperative methods (`SearchList`, `ScoreRow` and its loops), each proved equal to those functions.
- `plugin.dfy` models `src/plugin.ts`:
  - the query building and pagination as functions;
  - the comparator sort as an in-place insertion sort on an array;
  - the `searchTrips` handler as a method. The two store calls are function-typed parameters standing for the store's answers.

Modelling choices:

- **Falsy parameters.** A numeric or date query parameter that is missing or blank is `None`, and a missing or blank moods string is `""`, because the code treats both as falsy. A given `"0"` is truthy in JavaScript, so it is `Some(0)`.
- **The city parameter** is only ever compared with a row's key, never tested for truthiness. `None` is a missing city, which matches no row, because every modelled document carries a city (see "## Left out"). `Some("")` is a blank city, which matches the rows keyed `""`; `BuildQuery` produces it from an empty path segment.
- **Missing trip fields.** A comparison with a missing trip field is false in JavaScript, so a missing trip date never excludes a trip and a missing trip number never hits.
- **Dates** are only ever compared by order, so an integer ordinal stands for them.
- **Weights and relevance** are exact `real`s.

Behaviour of the code that a reader might not expect:

- **Date rule.** The date filter is containment, not overlap. The query's start must be at or before the trip's start, and the trip's end at or before the query's end (`DatesPass`, `DateRuleIsContainment`).
- **Persons.** The persons criterion compares the requested persons with the trip's *budget*. It earns the budget weight 0.1 out of a possible 0.2 (`PersonsComparedWithBudget`, `PersonsQueryNeverFullScore`).
  - So for mood "beach" and two persons in Berlin, the beach trip scores 200/3, not 100 (`BeachTripScore`, `BeachAndPersonsScenario`).
- **Zero-hit workaround.** It scores 100 when no optional criterion is given, and 50 / possible relevance otherwise. The zero-hit score is not clamped. It exceeds 100 whenever the criteria given are worth less than 0.5 in all (`ZeroHitRelevance`).
- **Relevance is not monotone.** A trip that meets one more criterion can score lower. For a persons-only query, a trip hitting nothing scores 250 and a trip hitting persons scores 50 (`ZeroHitOutranksHit`). The trip search never sends budget or accommodations to the list. So for a request without a `moods` parameter that carries persons or days, a trip hitting nothing scores 125 or 250 and outranks every trip that hit something (`ZeroHitOutranksEveryHit`). With moods requested, an admitted trip always hit a mood, so the workaround never applies (`MoodsAdmittedHasHit`).
- **Moods in the path.** The store query takes its moods from the `moods` query parameter. The path segment's pieces after the city are split off and never read (`PathMoodsIgnored`).

## Model

| member | source | states |
|---|---|---|
| Strings.Split | src/plugin.ts:437 | the pieces hold no separator; the first piece is the text before the first separator, or all of it |
| Strings.JoinSplit | src/plugin.ts:437 | joining the split pieces with the separator gives the original text back |
| Strings.SplitJoin | src/plugin.ts:437 | splitting the join of separator-free pieces gives the pieces back |
| Search.Emit | src/util/search.ts:19-23 | a document yields at most one row; it yields one exactly when its type is `trip`, and that row is keyed by the trip's city and holds the trip |
| Search.CityViewRows | src/util/search.ts:19-23 | the view holds exactly the trip documents, each keyed by its own city, and nothing else |
| Search.CityViewAppend | src/util/search.ts:19-23 | the view of two batches is the view of the first followed by the second: rows keep document order |
| Search.CityViewOfTwoTrips | src/util/search.ts:19-23 | two trips give two rows, in order, keyed by their cities |
| Search.Hits | src/util/search.ts:63-71 | `moods_hit` is at most the number of tokens, and positive exactly when some token occurs in the category |
| Search.MoodFilter | src/util/search.ts:54-72 | with moods requested, a trip passes exactly when its category holds one of the `.`-separated tokens |
| Search.DatesPass | src/util/search.ts:75-81 | with both query dates given, a trip passes exactly when each date it gives lies within the query's range (containment); a missing trip date never excludes, and a missing query date disables the filter |
| Search.DateRuleIsContainment | src/util/search.ts:75-81 | with both query dates and both trip dates, a trip passes exactly when its range lies inside the query's |
| Search.SumOfEntries | src/util/search.ts:115-118 | summing the record's entries in key order gives the total of its five criteria |
| Search.MoodShareBounds | src/util/search.ts:87 | the mood entry lies in [0, 0.4] and is positive when a mood hit |
| Search.EarnedWithinWeights | src/util/search.ts:84-118 | each entry lies between 0 and its weight when queried and is 0 otherwise; total <= possible relevance, short by at least 0.1 when persons is queried |
| Search.PossibleRange | src/util/search.ts:84-112 | the possible relevance lies in [0, 1], is 0 exactly when no optional criterion is given, and is at most 0.6 without moods |
| Search.PersonsComparedWithBudget | src/util/search.ts:95-100 | the persons entry compares with the budget; the trip's own persons never changes admission or score |
| Search.ScoreWhenHit | src/util/search.ts:128 | a total in (0, possible] scores in (0, 100], and 100 exactly when total equals the possible relevance |
| Search.ScoreWhenNoHit | src/util/search.ts:119-128 | the workaround scores 100 with no criteria; otherwise score times possible is 50, and the score is <= 100 exactly when possible >= 0.5 |
| Search.RelevanceWhenHit | src/util/search.ts:114-128 | a trip that hit something scores in (0, 100], and 100 exactly when every queried criterion hit fully |
| Search.PersonsQueryNeverFullScore | src/util/search.ts:95-128 | with persons queried, a trip that hit something scores below 100 |
| Search.ZeroHitRelevance | src/util/search.ts:119-128 | a trip hitting nothing scores 100 without criteria, is <= 100 exactly when possible >= 0.5, and is positive |
| Search.MoodsAdmittedHasHit | src/util/search.ts:54-88 | with moods requested, an admitted trip has a positive total, so the workaround never applies to it |
| Search.RelevancePositive | src/util/search.ts:114-128 | every score the list writes is positive |
| Search.ZeroHitOfPersonsAndDays | src/util/search.ts:119-128 | a trip hitting nothing scores 250 when the query is worth 0.2 and 125 when it is worth 0.4 |
| Search.ZeroHitOutranksEveryHit | src/util/search.ts:84-128 | for a query carrying persons or days and no moods, budget or accommodations, a trip hitting nothing scores 125 or 250 and outranks every trip that hit something |
| Search.ZeroHitOutranksHit | src/util/search.ts:95-128 | for a persons-only query, a trip hitting nothing scores 250 and a trip hitting persons scores 50 |
| Search.CityOnlyQueryScoresAll | src/util/search.ts:119-128 | a query with nothing but the city admits every trip and scores it 100 |
| Search.SelectedIndicesExact | src/util/search.ts:39-41 | the selected positions increase, and a row is selected exactly when its position is listed |
| Search.ScanListsSelectedRows | src/util/search.ts:39-133 | the result lists exactly the admitted rows of the query city, each once, in row order, each with its relevance |
| Search.ScanAppend | src/util/search.ts:39-134 | scanning two batches of rows is scanning the first, then the second |
| Search.ScanEntries | src/util/search.ts:39-133 | every result comes from a row of the query city that passed both filters, and carries its positive relevance |
| Search.EmptyQueryYieldsNothing | src/util/search.ts:38-41 | an empty query object yields an empty result |
| Search.ScanOfCityView | src/util/search.ts:19-41 | over the city view, every result is a trip document of the query city that passed both filters |
| Search.ScanOfTwoRows | src/util/search.ts:39-134 | the result for two rows is what the list pushes for the first, then for the second |
| Search.ScanOfTwoTrips | src/util/search.ts:19-133 | over two trips of the query city, the result lists the admitted ones in document order with their relevance |
| Search.BeachTripScore | src/util/search.ts:84-128 | for mood "beach" and two persons, the beach trip is admitted and scores 200/3 |
| Search.CityTripFiltered | src/util/search.ts:54-72 | for mood "beach", the trip tagged only "city" is filtered out |
| Search.BeachAndPersonsScenario | src/util/search.ts:27-137 | for mood "beach" and two persons over the two Berlin trips, the result is the beach trip alone, scoring 200/3 |
| Search.NoMoodHitScenario | src/util/search.ts:54-72 | for mood "ski" over the two Berlin trips, the result is empty |
| Search.CheckMoods | src/util/search.ts:54-72 | the mood loop counts every token in `moods_sum` and every hit in `moods_hit`, and sets `toPush` exactly when some token hit |
| Search.SumRecord | src/util/search.ts:115-118 | the `for…in` loop sums the record to its total |
| Search.CheckThreshold | src/util/search.ts:89-112 | a queried criterion adds its weight to the possible relevance, and earns its entry exactly when the trip's value reaches the query's |
| Search.CheckCriteria | src/util/search.ts:84-112 | the criteria checks build exactly the relevance record and the possible relevance of the specification |
| Search.ScoreRow | src/util/search.ts:42-131 | a row is pushed exactly when both filters pass, and then with the specified relevance |
| Search.SearchList | src/util/search.ts:27-137 | the list function's result is the scan of its rows |
| Plugin.CityOf | src/plugin.ts:437-442 | the city is the text of the path segment before its first `.`, or all of it |
| Plugin.OptsRoundTrip | src/plugin.ts:437-439 | the city is the first piece, and joining the pieces with `.` gives the path segment back |
| Plugin.BuildQuery | src/plugin.ts:441-448 | the query carries the city, the moods or "", and the dates, persons and days as given; never budget or accommodations; it is never empty |
| Plugin.PathMoodsIgnored | src/plugin.ts:436-448 | whatever follows the city in the path segment leaves the store query unchanged |
| Plugin.GetPaginationOption | src/plugin.ts:500-505 | page defaults to 1 and page size to 10; offset = (page - 1) * page size |
| Plugin.ResolveIndex | src/plugin.ts:490 | a `slice` index counts from the end when negative and is clamped to the length |
| Plugin.SliceFrom | src/plugin.ts:490 | `slice(start)` with a non-negative start drops the first `start` items, or all of them |
| Plugin.SliceTake | src/plugin.ts:490 | `slice(0, k)` with a non-negative k keeps the first k items, or all of them |
| Plugin.GetPaginatedItems | src/plugin.ts:488-492 | a page is no longer than the data and holds only its items |
| Plugin.PaginatedWindow | src/plugin.ts:488-505 | for page >= 1, the page is the data from the offset, at most a page size of it, in order; its length is min(size, max(0, n - offset)); past the end it is empty |
| Plugin.DefaultPageIsFirstTen | src/plugin.ts:488-505 | without page parameters the page is the first ten items |
| Plugin.ConsecutivePages | src/plugin.ts:488-505 | pages p and p + 1 together are the data's window over both |
| Plugin.PageZeroGivesLastItems | src/plugin.ts:488-505 | page 0 gives a negative offset, and the reply is the last page-size items |
| Plugin.Compare | src/plugin.ts:455-459 | the callback is positive exactly when `a` has the lower relevance, and negative exactly when the higher |
| Plugin.InsertAt | src/plugin.ts:455-459 | one insertion pass puts the first i + 1 items in relevance order while they keep the same items, leaves every item after them where it was, and keeps the array's items |
| Plugin.SortByRelevance | src/plugin.ts:455-459 | afterwards relevance never increases along the array, and the array holds the same items |
| Plugin.PageOutranksLaterItems | src/plugin.ts:455-460 | every item on a page has at least the relevance of every item after the page |
| Plugin.SearchTrips | src/plugin.ts:435-472 | a store error gives 400; a non-empty scored list gives the page of its relevance-ordered permutation; an empty one gives the page of the city's trips or a 400 |
| Plugin.RankedPageFromCityView | src/plugin.ts:449-460 | every trip on a ranked page is a trip document of the requested city that passed both filters, with positive relevance |
| Plugin.GetQueryDate | src/plugin.ts:507-512 | the date is missing exactly when the query or its date is, and otherwise is the query's date |
| Plugin.PictureRedirect | src/plugin.ts:259-268 | the redirect is the picture's data-route path, followed by `?size=` and the size exactly when a size is given |
| Plugin.RedirectQueryOnlyWithSize | src/plugin.ts:259-268 | with no `?` in the identifiers, the redirect carries a query string exactly when a size is given |

## Left out

- Route table and hapi wiring, the CRUD handlers and the deprecated image routes (which answer 410): thin pass-throughs to the database plugin, which is not part of this model.
- `registerScheduledJob`: a cron job with promises, schema validation and logging side effects.
- `src/util/schema.ts`, `src/util/logging.ts`, `src/setup.ts` and `test/test.js`: declarative schemas, log I/O, a database save call, and HTTP-level route tests.
- The CouchDB execution model (`getRow`, `emit`, `send`, `JSON.stringify`, asynchronous callbacks). The list is a method over a finite row sequence, and the view's key ordering of rows is not modelled, so every property holds for any row order. The store's answers to `searchTripsByQuery` and `getTripsByCity` are inputs.
- How the database plugin turns the store query object into the list's query parameters is assumed to pass each field through unchanged.
- Floating point: weights and relevance are exact reals, so IEEE rounding is not modelled.
- JavaScript coercion:
  - a numeric query parameter arrives as a string, and `<=` against a numeric trip field converts it to a number, so the model's integer comparison is the code's for integer parameters; query dates, and any trip field stored as a string, compare as strings, which the model replaces by date ordinals and integers;
  - a non-numeric `persons` or `days` parameter is truthy, adds its weight to the possible relevance and never hits (its comparison with `NaN` is false); the model's parameters are integers, so this case is not modelled;
  - `NaN` from a non-numeric page or page size is not modelled;
  - the row key and the query city compare with `==`; the model uses string equality.
- The document shape follows what the view and the list read (`type`, a string `city`, `category`, `start_date`, `end_date`, `budget`, `persons`, `days`, `accommodations`), not the trip schema of `src/util/schema.ts:25-47`, which is not part of this model. Under that schema `city` is an object `{title, place_id, id}`, moods are stored as `moods`, and there is no `category`, `budget` or `days`. Such a document would be keyed by an object, never equal the query city, and so the list would return nothing and the plugin would always take its city fallback. The model describes the list as written against documents carrying the fields it reads.
- A trip document without a `category` makes the list throw; the model's documents always carry one.
- A trip without a `city` (the schema leaves it optional) is emitted under key `null`, and `null == undefined` holds in JavaScript, so a non-empty query without a `city` parameter matches every city-less trip; the `queryParams != '{}'` guard is what keeps the empty query from matching them. The model's documents always carry a string city, so this case is not modelled; the plugin always sends a city, so it cannot arise through `searchTrips`.
- `row.value.relevance` is written into the document in place; the model pairs the trip with its relevance in a `Scored` value instead.
- `RELEVANCE_SUM` in the weight table is never read, so it is not modelled.
- Plugin.SortByRelevance: the JavaScript engine's sort algorithm is not specified, so the model sorts by insertion and claims only the order and the permutation, not which permutation or stability.
- Search.CityOnlyQueryScoresAll: states the city-only case per trip; a whole-scan statement for a concrete city-only query is not proved. `ScanListsSelectedRows` together with this lemma gives the same result.

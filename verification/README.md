# MoodAI core, modelled in Dafny

MoodAI is a journaling application. A user writes journal entries. Each entry
is embedded into a vector index, and a language model classifies its mood
into a triple (label, score, category). From the latest mood record, the
application recommends YouTube videos and songs and TMDB movies, and it can
store canned suggestions. A chart shows the latest thirty mood scores. Each
journal card shows a headline and a preview. A middleware guards the pages,
and sign-in checks an e-mail and password and fills a session token.

The model has one module per source file, plus a few shared modules:

- `Wrappers`: `Option`/`Result`, and JavaScript truthiness of optional strings.
- `Text`: ASCII lower-casing, prefixes, decimal numerals, `split`/`join`.
- `Ordering`: a stable sort by an integer key, as a function and as an in-place sort of an array.
- `JsObject`: property lookup on an object literal, including the names inherited from `Object.prototype`.
- `Http`: query parameters built by `append`, requests, and replies.
- `Store`: the Prisma tables and the Pinecone index, as one `Database` class.

Outside calls become parameters:

- the network (`fetch`);
- the model SDKs (generation, chat completion, embedding);
- the vector index's answer to an upsert;
- bcrypt's `compare`;
- URL origin parsing;
- the clock (`now`) and date rendering.

Each catalog adapter returns its outcome together with the list of requests
it sent. This is how the model states facts such as "no request without a
key" and "TMDB is not asked when YouTube failed".

## Model

| member | source | states |
|---|---|---|
| YouTube.TableEntriesHaveFourPhrases | lib/youtube.ts:38-63 | the table has a `neutral` entry, and every entry has exactly four video and four song phrases, so index 0 always exists |
| YouTube.MoodSearchQueries | lib/youtube.ts:32-66 | the entry of the lower-cased label when the table has one, otherwise the `neutral` entry; four and four phrases |
| YouTube.QueriesIgnoreCase | lib/youtube.ts:36-65 | a label and its lower-cased form choose the same phrases |
| YouTube.QueriesIgnoreCategory | lib/youtube.ts:32-65 | the category argument never changes the chosen phrases |
| YouTube.SearchRequestCarries | lib/youtube.ts:80-86 | the search request has exactly the parameters part, q, type, maxResults, key and order, in that order, carrying `snippet`, the phrase, `video`, the decimal count that parses back to maxResults, the key and `relevance` |
| YouTube.SearchRequest | lib/youtube.ts:80-86 | the request goes to the search endpoint with six parameters |
| YouTube.PickThumbnail | lib/youtube.ts:100 | the `high` URL if it is non-empty, else the `medium` URL if non-empty, else the `default` URL |
| YouTube.ToVideosPreserves | lib/youtube.ts:96-103 | the mapping keeps the number and order of the items and reshapes each by `ToVideo`: id, title, description, channel and date copied, and the thumbnail chosen by `PickThumbnail` |
| YouTube.ToVideos | lib/youtube.ts:96-103 | one video per item |
| YouTube.SearchOutcome | lib/youtube.ts:88-107 | success exactly on an ok reply; a non-ok reply fails with "YouTube API error: " plus the status text; a rejected fetch fails with its own error |
| YouTube.Search | lib/youtube.ts:71-108 | with no key the result is the key error and nothing is sent; otherwise exactly one request, to the search endpoint |
| YouTube.SearchVideos | lib/youtube.ts:71-108 | building the URL by successive appends sends the same request and returns the same outcome as the function `Search`: with no key there is no request and the key error; otherwise there is exactly one request |
| YouTube.ByMoodRequests | lib/youtube.ts:113-129 | with no key nothing is sent; otherwise the first request searches the first video phrase for 5 results; the first song phrase is searched only when that succeeds; the first failure is the outcome |
| YouTube.ByMood | lib/youtube.ts:113-129 | at most two requests are sent, and a success means both searches were sent |
| YouTube.SearchBoth | lib/youtube.ts:120-128 | at most two searches, and both were sent when the result is a success |
| YouTube.ByMoodOnlySearches | lib/youtube.ts:120-128 | every request the adapter sends goes to the search endpoint |
| YouTube.RecommendationsByMood | lib/youtube.ts:113-129 | the method sends the requests and returns the outcome of `ByMood` |
| YouTube.FirstPhrasesAsWritten | lib/youtube.ts:65-123 | the lookup as written: labels that are not `Object.prototype` names give the same first phrases as the corrected lookup |
| YouTube.ByMoodAsWritten | lib/youtube.ts:65-129 | the adapter as written: for labels that are not `Object.prototype` names it is the corrected adapter, requests and outcome alike |
| YouTube.ConstructorLabelThrows | lib/youtube.ts:65-123 | a label "Constructor" makes the adapter as written fail with a TypeError and send no request, with or without a key; the corrected lookup gives it the neutral phrases |
| Tmdb.MoodMovieParams | lib/tmdb.ts:29-68 | the entry of the lower-cased label when the table has one, otherwise the `neutral` entry |
| Tmdb.ParamsIgnoreCaseAndCategory | lib/tmdb.ts:34-67 | label case and the category argument never change the chosen parameters |
| Tmdb.JoinIdsRoundTrip | lib/tmdb.ts:91-93 | splitting the comma-joined genre ids and parsing each piece gives back the ids |
| Tmdb.DiscoverParamsForLabel | lib/tmdb.ts:83-93 | api_key, language=en-US, sort_by=popularity.desc and page=1 come first; `with_genres` is present exactly for the table's labels other than `neutral`, and its value is that entry's genre ids joined by commas |
| Tmdb.TableSortsByPopularity | lib/tmdb.ts:36-65 | every entry sorts by `popularity.desc`, and every entry except `neutral` lists genres |
| Tmdb.DiscoverParamsCarry | lib/tmdb.ts:86-93 | for any entry, the four fixed parameters come first, `sort_by` is the entry's sort or the default, and `with_genres` is present exactly when the entry lists genres, with the comma-joined ids as its value (which `JoinIdsRoundTrip` reads back) |
| Tmdb.DiscoverParams | lib/tmdb.ts:86-93 | five parameters when the entry lists genres, four otherwise |
| Tmdb.ToMovie | lib/tmdb.ts:105-115 | a non-empty poster path is prefixed with the w500 image base; an empty or null one becomes null |
| Tmdb.SliceEnd | lib/tmdb.ts:104 | the end index `slice(0, n)` uses, including a negative `n` counted from the end |
| Tmdb.ToMoviesPrefix | lib/tmdb.ts:103-115 | the movies are the first min(maxResults, count) results, in order, each reshaped by `ToMovie` |
| Tmdb.ToMovies | lib/tmdb.ts:103-115 | as many movies as `slice(0, maxResults)` keeps, never more than the results |
| Tmdb.DiscoverOutcome | lib/tmdb.ts:95-119 | success exactly on an ok reply; a non-ok reply fails with "TMDB API error: " plus the status text; a rejected fetch fails with its own error |
| Tmdb.ByMood | lib/tmdb.ts:73-120 | no request exactly when the key is missing, and never more than one |
| Tmdb.ByMoodRequest | lib/tmdb.ts:78-99 | with no key the adapter fails with the key error and sends nothing; with a key it sends exactly the discover request built from the label's parameters, and that reply's outcome is the result |
| Tmdb.ByMoodOnlyDiscovers | lib/tmdb.ts:78-99 | at most one request is sent, and it goes to the discover endpoint |
| Tmdb.MoviesByMood | lib/tmdb.ts:73-120 | building the URL by appends, with the conditional `with_genres`, sends the request and returns the outcome of `ByMood` |
| Tmdb.AsWrittenSendsSameRequest | lib/tmdb.ts:67-93 | the lookup as written, which also finds `Object.prototype` names, builds the same request as the corrected lookup for every label |
| Tmdb.MoodMovieParamsAsWritten | lib/tmdb.ts:67 | the lookup as written is the corrected one off the `Object.prototype` names; on those names it yields no genres and no sort |
| JsObject.Get | lib/youtube.ts:65 | `obj[name]` on a literal is its own entry when there is one, an inherited member for the `Object.prototype` names, and undefined otherwise |
| JsObject.GetOwnOr | lib/youtube.ts:65 | the own entry, or the fallback |
| JsObject.GetOrAsWritten | lib/youtube.ts:65 | `obj[name] \|\| fallback`: the own entry when there is one, the inherited member for an `Object.prototype` name, otherwise the fallback |
| JsObject.AsWrittenDiffersOnInherited | lib/youtube.ts:65 | `obj[name] \|\| fallback` agrees with the own-entry lookup exactly on the names that are not inherited |
| Http.SearchParams.Append | lib/youtube.ts:81-86 | `append` adds one parameter at the end and keeps the earlier ones |
| MoodJson.CategoryFromScore | lib/gemini.ts:56 | "Positive" exactly when a score is present and above 0.6, else "Negative" |
| MoodJson.Normalise | lib/gemini.ts:50-61 | unparsable text and `null` give the fallback triple; a non-object gives ("Neutral", 0.5, "Negative"); an object keeps each present field and replaces an absent one by its default, with the category falling back on the raw score |
| MoodJson.MissingScoreReadsNegative | lib/gemini.ts:53-56 | a reply without score or category reads as score 0.5 and category "Negative" |
| MoodJson.EmptyLabelKept | lib/gemini.ts:53 | an empty label is kept, because `??` replaces only null and undefined |
| MoodJson.NeutralCategoryOrigin | lib/gemini.ts:55-60 | the category "Neutral" comes only from the fallback or from a reply that says so |
| Gemini.PromptEmbedsText | lib/gemini.ts:30-45 | the prompt is the fixed instructions, then the text verbatim between triple quotes, then a line break |
| Gemini.Prompt | lib/gemini.ts:30-45 | the prompt opens with the fixed instructions and is seven characters (two triple quotes and a line break) longer than instructions and text together |
| Gemini.AnalyzeMood | lib/gemini.ts:26-62 | a failed model call propagates; otherwise the result is the normalised parse of the reply text |
| OpenAI.AnalyzeMood | lib/openai.ts:17-41 | a failed chat call propagates; with no choices the result is the fallback triple; otherwise the first choice's content is normalised, or "{}" when the content is null |
| OpenAI.NullContentReadsNegative | lib/openai.ts:31-37 | a null content reads as ("Neutral", 0.5, "Negative") |
| Store.FindById | graphql/resolvers/moodResolver.ts:15 | `findUnique` by id: none exactly when no row has the id, otherwise a row with that id |
| Store.OfUserMembers | graphql/resolvers/journalResolver.ts:9 | filtering by owner keeps exactly the owner's rows |
| Store.NewestFirstSpec | graphql/resolvers/journalResolver.ts:8-11 | `findMany` by user, newest first, is a permutation of the user's rows, sorted by descending creation time |
| Store.AppendKeepsFreshIds | graphql/resolvers/journalResolver.ts:17 | appending a row with the next id keeps every id in the table below the counter |
| Store.Database.CreateJournal | graphql/resolvers/journalResolver.ts:17 | appends a journal with a fresh id, no mood and no vector id, and changes no other table |
| Store.Database.UpdateJournal | graphql/resolvers/journalResolver.ts:32-35 | replaces one journal row and changes nothing else |
| Store.Database.CreateMoodRecord | graphql/resolvers/moodResolver.ts:22-30 | appends a mood record with a fresh id and changes no other table |
| Store.Database.CreateRecommendation | graphql/resolvers/recommendationResolver.ts:67-74 | appends a recommendation with a fresh id and changes no other table |
| Store.Database.UpsertVector | graphql/resolvers/journalResolver.ts:23-29 | stores the vector under its id, replacing any earlier one, and leaves the tables alone |
| JournalResolver.JournalsByUser | graphql/resolvers/journalResolver.ts:7-11 | exactly the user's journals, newest first |
| JournalResolver.CreateJournal | graphql/resolvers/journalResolver.ts:15-38 | the row is written first. If embedding or the upsert fails, the row stays without a vector id and the error is returned. On success the vector carries the journal's id, user, content and ISO time, `vectorId` is set to the journal's own id, and the row is returned as first created |
| MoodResolver.MoodHistory | graphql/resolvers/moodResolver.ts:6-10 | exactly the user's mood records, newest first |
| MoodResolver.AnalyzeMood | graphql/resolvers/moodResolver.ts:14-39 | an unknown journal gives "Journal not found" and writes nothing; a failed classification writes nothing; otherwise one mood record with the classified triple is stored for the journal's user and the journal's mood becomes the label |
| RecommendationResolver.Recommendations | graphql/resolvers/recommendationResolver.ts:8-12 | exactly the user's recommendations, newest first |
| RecommendationResolver.LatestMoodRecord | graphql/resolvers/recommendationResolver.ts:16-19 | none exactly when the user has no mood record; otherwise one of the user's records with the greatest creation time |
| RecommendationResolver.CategoryArg | graphql/resolvers/recommendationResolver.ts:29 | the stored category when it is non-empty, else "" |
| RecommendationResolver.MediaFor | graphql/resolvers/recommendationResolver.ts:25-45 | at most three requests are sent, and a success means three were sent |
| RecommendationResolver.MediaAfter | graphql/resolvers/recommendationResolver.ts:32-45 | once YouTube has answered, at most one more request is sent; a success needs a YouTube success and exactly one TMDB request |
| RecommendationResolver.MediaForAsWritten | graphql/resolvers/recommendationResolver.ts:25-45 | the call on the YouTube adapter as written: for labels that are not `Object.prototype` names it is `MediaFor`; for those names it fails with the TypeError and sends nothing |
| RecommendationResolver.MediaForOutcome | graphql/resolvers/recommendationResolver.ts:25-45 | a YouTube failure is the outcome, and only searches were sent. After a YouTube success the requests are YouTube's followed by TMDB's; a TMDB failure is then the outcome, and a TMDB success gives a success copying the record's label, category and score and the adapters' lists unchanged |
| RecommendationResolver.MoodBasedRecommendations | graphql/resolvers/recommendationResolver.ts:14-46 | with no mood record it fails with the fixed message before any request; otherwise it is the media for the latest record |
| RecommendationResolver.GenerateMoodBasedRecommendations | graphql/resolvers/recommendationResolver.ts:79-125 | the same outcome; on success exactly one "Mood-Based-Media" record holding the three lists is stored for the latest record; on any failure nothing is stored |
| RecommendationResolver.SuggestionsFor | graphql/resolvers/recommendationResolver.ts:57-65 | the exact-case table entry, otherwise the default pair |
| RecommendationResolver.SuggestionsCaseSensitive | graphql/resolvers/recommendationResolver.ts:57-65 | "happy" and "Calm" get the default pair; "Happy" does not |
| RecommendationResolver.SuggestionsAsWritten | graphql/resolvers/recommendationResolver.ts:65 | the lookup as written: the corrected suggestions for any label that is not an `Object.prototype` name, the inherited member for those names |
| RecommendationResolver.ToStringLabelStoresNoList | graphql/resolvers/recommendationResolver.ts:65 | the lookup as written yields the inherited `toString` for the label "toString"; the corrected lookup gives the default pair |
| RecommendationResolver.GenerateRecommendation | graphql/resolvers/recommendationResolver.ts:50-77 | an unknown mood record gives "Mood record not found" and writes nothing; otherwise exactly one "Mood-based" record with the label's suggestions is stored for the record's user |
| Ordering.SortBySortedPermutation | components/MoodChart.tsx:63 | the sort result is ordered by the key and is a permutation of its input |
| Ordering.SortByStable | components/MoodChart.tsx:63 | for every key value, the elements with that key keep their input order |
| Ordering.InsertInPlace | components/MoodChart.tsx:63 | one insertion step in place: the first i+1 cells become the stable insertion of cell i into the sorted prefix, and the rest is unchanged |
| Ordering.SortInPlace | components/MoodChart.tsx:63 | the array's new contents are the stable sort of its old contents |
| Ordering.TakeLastKeepsLargest | components/MoodChart.tsx:66 | `slice(-n)` of a sorted list has min(n, length) elements, is its tail, is sorted, and no dropped element has a greater key than a kept one |
| MoodChart.ScoreOrZero | components/MoodChart.tsx:57 | an absent score reads 0; a present one is kept, 0 included |
| MoodChart.ToRow | components/MoodChart.tsx:52-60 | a row keeps the record's time and label, takes the score or 0, and the date rendered from the time |
| MoodChart.ToRows | components/MoodChart.tsx:52-60 | one row per record, in order |
| MoodChart.ToPoints | components/MoodChart.tsx:66 | dropping the time keeps date, score and label, one point per row |
| MoodChart.ErrorMessage | components/MoodChart.tsx:45-47 | the first error's message when it is non-empty, otherwise "Failed to fetch mood records", including for an empty error list |
| MoodChart.Latest | components/MoodChart.tsx:62-66 | min(30, n) rows, ascending by time |
| MoodChart.Chart | components/MoodChart.tsx:30-73 | a failed request gives its message, and an `errors` array gives `ErrorMessage`. A body without errors but with a history succeeds exactly with the points of `Latest` of its rows, min(30, n) of them; a success needs such a body |
| MoodChart.LatestWindow | components/MoodChart.tsx:62-66 | the window has min(30, n) rows and is ascending by time. It is the tail of the sorted rows, which are a permutation of the input, so no dropped row is later than a kept one |
| MoodChart.LatestStable | components/MoodChart.tsx:63 | the sort behind the window keeps rows with equal time in their input order |
| MoodChart.ShortHistoryKeepsAll | components/MoodChart.tsx:62-66 | with at most thirty records the window is all of them, sorted |
| MoodChart.FetchMoodRecords | components/MoodChart.tsx:30-73 | sorting the rows in place in an array, then keeping the last thirty, gives the chart function's result; errors give its messages |
| JournalCard.Prefix | components/JournalCard.tsx:13-14 | `substring(0, n)` has min(n, length) characters and is a prefix |
| JournalCard.Headline | components/JournalCard.tsx:13 | the headline is a prefix of the content, empty only for empty content |
| JournalCard.HeadlineIsFirstLine | components/JournalCard.tsx:13 | when the content does not open with a line break, the headline is the whole text before the first line break, untruncated and non-empty |
| JournalCard.HeadlineAfterLeadingBreak | components/JournalCard.tsx:13 | content opening with a line break has as headline its first fifty characters, the break included |
| JournalCard.Preview | components/JournalCard.tsx:14 | content of up to 100 characters is the preview unchanged; longer content gives its first 100 characters plus "...", 103 in all |
| JournalCard.PreviewUnchangedIff | components/JournalCard.tsx:14 | the preview equals the content exactly when the content has at most 100 characters, or is 100 characters followed by "..." |
| Middleware.PublicRouteIsRawPrefix | middleware.ts:9-13 | examples only (the all-paths statement is `PublicRouteExtends`): "/loginfoo" and "/registered" are public, while "/favicon.ico/x" and "/" are not |
| Middleware.IsPublicRoute | middleware.ts:9-13 | every public path starts with "/" |
| Middleware.PublicRouteExtends | middleware.ts:9-13 | for every path: anything appended to a public path other than "/favicon.ico" is public too, because the tests are raw prefix tests |
| Middleware.Guard | middleware.ts:15-19 | redirect to login exactly when logged out on a non-public path; logged-in requests and public paths pass |
| Middleware.Middleware | middleware.ts:22-26 | paths the matcher excludes pass untouched; the others get the guard's decision |
| Middleware.MatcherApplies | middleware.ts:24 | the guard runs only on paths that start with "/", and never on one starting with "/api" |
| Middleware.RedirectExactly | middleware.ts:15-26 | a request is redirected exactly when it is logged out, the matcher covers the path, and the path is not public |
| Middleware.MatcherSkips | middleware.ts:22-26 | for every path and login state: a path under "/api" passes, not only "/api/auth", and so does every "/favicon" + any character + "ico" path, because the pattern's dot matches any character |
| Middleware.MatcherExamples | middleware.ts:22-26 | examples only (the all-paths statements are `RedirectExactly` and `MatcherSkips`): "/api/graphql" and "/faviconXico" skip the guard; "/_next/data" is guarded but public; a logged-out "/journal" is redirected |
| Auth.SessionUserOf | auth.ts:54-60 | the session user copies id and e-mail; the username is the stored name, or the e-mail when the name is empty; the image is kept when non-empty, else null; `isOauth` is false |
| Auth.Authorize | auth.ts:41-61 | a user comes back exactly when both fields are non-empty, a row has that e-mail and a non-empty hash, and the password check passes; the user is then that row's session user |
| Auth.TokenName | auth.ts:81 | the name, else the username, else "" |
| Auth.TokenUsername | auth.ts:82 | the username, else the name, else "" |
| Auth.TokenNamesAgree | auth.ts:81-82 | the two token names differ only when both names are present, non-empty and different; one is empty exactly when the other is |
| Auth.CredentialsTokenNames | auth.ts:54-82 | after an e-mail/password sign-in, both token names are the session user's username |
| Auth.AsJwtUser | auth.ts:54-60 | the object `authorize` returns, as the token callback reads it: id, e-mail, username and image, and no `name` |
| Auth.Token.Jwt | auth.ts:77-87 | without a user the token is unchanged; with one, id, e-mail, both names and image are copied or defaulted, and `isOauth` is true exactly when an account is passed |
| Auth.Redirect | auth.ts:101-105 | the callback fails exactly when the URL neither starts with "/" nor parses, with the invalid-URL error |
| Auth.RedirectStaysOnSite | auth.ts:101-105 | a path is appended to the base URL. An absolute URL is kept when its origin is the base URL, and is otherwise replaced by the base URL. Only an unparsable absolute URL fails, so every target is on the site |

## Left out

- Outside calls are parameters: the network (`fetch` and `response.json()`), the Gemini and OpenAI SDKs, Pinecone, Prisma, bcrypt and the NextAuth wiring.
- Embedding: `createEmbedding` in lib/gemini.ts and lib/openai.ts is a parameter of the journal resolver.
- Provider set-up: the Google provider, the session lifetime and the secret are configuration and are not modelled.
- `session` callback (auth.ts:89-99): it only copies token fields and reads the clock.
- Date rendering: `toLocaleDateString` and `toISOString` are not modelled. The chart and the journal resolver take the rendering as a function.
- Date parsing: the chart receives each record's time as an integer already. Invalid dates, which make the comparator return NaN, are not modelled.
- The journal card's date line is not modelled.
- Strings: characters stand for JavaScript's UTF-16 code units, so lengths and `substring` differ from the model for text outside the Basic Multilingual Plane.
- Percent-encoding of query parameters is not modelled.
- YouTube.MoodSearchQueries: lower-cases ASCII letters only, not all of `toLowerCase`. The only non-ASCII character whose lower case is ASCII is the Kelvin sign, which maps to "k", and no table key contains "k", so the table choice is the same.
- Tmdb.MoodMovieParams: the same ASCII-only lower-casing as YouTube.MoodSearchQueries.
- JSON values: a field of the classifier's reply is modelled as absent or of its expected type. A string score, or a label of another type, is not modelled.
- Tmdb.ToMovie: copies `vote_average` and the genre ids as values and does no arithmetic on them.
- TMDB keywords: the table's `keywords` are part of the model, but the code never sends them, so neither does the model.
- The code has no similarity retrieval over the vector index, re-ranking, caching, de-duplication, per-adapter error isolation, time-outs or result counts, and neither has the model. One adapter's error ends the whole resolver, as in the code.
- Store.NewestFirstSpec: the database's order for equal timestamps is unspecified. The model keeps insertion order for ties, so which of several equally recent mood records counts as latest is one particular choice.
- The mood chart calls `getCurrentUserMoodHistory`, which graphql/schema/moodSchema.ts does not declare. The model treats the reply as a parameter and covers every reply shape.
- RecommendationResolver.SuggestionsAsWritten: stops at the lookup. What Prisma writes for a Json field holding a function (dropped, rejected or serialised) is not modelled.
- RecommendationResolver.MediaFor, RecommendationResolver.MediaForOutcome, RecommendationResolver.MoodBasedRecommendations, RecommendationResolver.GenerateMoodBasedRecommendations: built on the corrected YouTube lookup (`YouTube.ByMood`). On a label that lower-cases to an `Object.prototype` name they differ from the code as written, which fails with a TypeError before any request (see "## Findings"); `RecommendationResolver.MediaForAsWritten` states that behaviour.
- RecommendationResolver.GenerateRecommendation: built on the corrected lookup `SuggestionsFor`. On a label that is an `Object.prototype` name, such as "toString", it stores the default pair, where the code as written takes the inherited member (see "## Findings").
- Other files: graphql/resolvers/userResolver.ts (password hashing and a create), graphql/resolvers/index.ts, the schema files and next.config.ts are not part of this model. They contain wiring, type declarations and build settings.
- UI: the React pages and modals, and the JSX of the card and the chart, are not part of this model.

## Findings

| source | as written | input that shows it | evidently intended | confidence | as-written member | corrected member |
|---|---|---|---|---|---|---|
| lib/youtube.ts:65 | `queries[moodLower] \|\| queries.neutral` also finds members inherited from `Object.prototype`. `videos` is then undefined, and `videoQueries[0]` throws a TypeError (lib/youtube.ts:120-123) | a mood record labelled "Constructor" (or "__proto__") | unknown labels use the neutral phrases | high; not executed | YouTube.FirstPhrasesAsWritten, YouTube.ByMoodAsWritten, YouTube.ConstructorLabelThrows, RecommendationResolver.MediaForAsWritten | YouTube.MoodSearchQueries |
| graphql/resolvers/recommendationResolver.ts:65 | `suggestions[moodRecord.moodLabel] \|\| [...]` also finds members inherited from `Object.prototype`. The suggestions are then the inherited member, not the default pair; what the store makes of it is not modelled | a mood record labelled "toString" (any of the twelve prototype names) | unknown labels get ["Take a break", "Smile :)"] | high; not executed | RecommendationResolver.SuggestionsAsWritten, RecommendationResolver.ToStringLabelStoresNoList | RecommendationResolver.SuggestionsFor |

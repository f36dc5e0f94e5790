# Escape-room recommender: a verified model of its retrieval and ranking core

This project models, in Dafny, the deterministic core of a chat bot that recommends
escape-room themes. The bot does four things:

- it re-ranks candidate themes by keywords found in the user's query (`sort_candidates_by_query`);
- it filters the theme store by play history, explicit exclusions and location, and projects records into candidate views (`search_themes`);
- it runs nearest-neighbour searches that skip excluded themes and keep the store's order (`_execute_vector_search` and its callers);
- it orchestrates a chat turn (`EscapeBotEngine.generate_reply`):
  - it reads the intent;
  - it records or un-records played themes;
  - it builds the participant list;
  - it carries filters over for "another one";
  - it fills the `rule_based`, `personalized` and `text_search` buckets in that order.

The model is organised by source file:

| module | file | models |
|---|---|---|
| `Text`, `Records` | text.dfy, records.dfy | Python's string operations and loosely typed stored values (`float()`, `int()`, truthiness, `dict.get`) |
| `Sorting` | sorting.dfy | `list.sort(key=…, reverse=True)`, as an in-place stable insertion sort on an array |
| `Utils` | utils.dfy | utils.py |
| `AppSort` | app_sort.dfy | the older sort in app.py |
| `Recommenders` | recommenders.dfy | recommenders.py. app.py's recommender classes are the same code and are modelled once; the `Ranker` parameter selects which sort they use |
| `BotEngine` | bot_engine.dfy | bot_engine.py |
| `App` | app.dfy | the engine variant in app.py |

How the model stands in for what it does not run:

- **Exceptions.** A Python exception the code does not catch becomes `None` (or the `Raise` step).
- **Document store.** Each query's answer is an input sequence of documents:
  - the users collection is a `seq<User>`, with a flag for an unreachable store;
  - the theme query's answer is a `seq<ThemeDoc>`;
  - nearest-neighbour answers are `Option<seq<ThemeDoc>>`.
- **Language model.** Each completion is an input `Completion`, and `json.loads` is a parameter `parse`.
- **Users collection.** It is a `UserStore` object whose `users` field `update_play_history` rewrites.

Three behaviours of the code that a reader might not expect:

- `_execute_vector_search` tests the length only after appending. With `limit == 0` and a non-empty `exclude_ids` (so that the store is asked for a positive number of neighbours) it therefore still returns one result (`Cap`), not none. With `limit == 0` and no exclusions the store is asked for 0 neighbours; the model takes the store's answer `neighbours` as an input that `fetch_limit` does not bound, so it does not capture that the real store then rejects the query or answers nothing, giving [].
- `generate_reply` tests `if tid:`. A theme whose id is 0 is therefore reported as not found.
- The vector search compares only the document key string with `exclude_ids`. An integer id there excludes nothing (`Unexcluded`). `search_themes`, by contrast, also matches the int and str forms of the canonical id (`Excluded`).

## Model

| member | source | states |
|---|---|---|
| Text.Strip | recommenders.py:16 | `str.strip()`: the result is the input with exactly its leading and trailing whitespace removed; it is empty iff the input is all whitespace |
| Text.Split | recommenders.py:16 | `str.split(',')`: at least one part, none holding a ','; a string without ',' is its own only part |
| Text.StripKeepsOut | recommenders.py:16 | stripping a string without a ',' leaves a name without a ',' |
| Text.SplitJoin | recommenders.py:16 | joining the parts of `split(',')` with ',' gives the string back |
| Text.SplitStrip | recommenders.py:16 | one trimmed name per comma-separated part |
| Text.RemoveSpaces | bot_engine.py:58 | `replace(" ", "")`: no space is left, every other character occurs as often as before, and a string without spaces is unchanged |
| Text.RemoveSpacesConcat | bot_engine.py:58 | removing spaces from a concatenation removes them from each piece, keeping the pieces in order |
| Text.RemoveSpacesDropsSpace | bot_engine.py:58 | a space between two pieces is dropped and the pieces are kept around it, in order |
| Text.RemoveSpacesIdempotent | bot_engine.py:58-62 | removing spaces twice equals removing them once |
| Text.ContainsTransitive | utils.py:21-49 | substring containment is transitive (a query holding "안무서운" holds "무서운") |
| Text.ParseIntRoundTrip | recommenders.py:53-54 | `int(str(n)) == n`: the decimal key of an id parses back to it |
| Text.DigitsRoundTrip | recommenders.py:53-54 | the digit string of a natural number parses back to it |
| Records.IntOf | recommenders.py:31 | `int(v)`: an int is itself, a float is truncated toward zero, a string is parsed as a decimal integer; None and vectors raise |
| Records.ToFloat | utils.py:16 | `float(v)` succeeds exactly on ints and floats, giving their value as a float |
| Records.Truncate | recommenders.py:31 | `int(x)` on a float truncates toward zero: the integer nearest zero whose distance to x is below 1 |
| Records.RatingOf | recommenders.py:85-92 | `float(v or 0)`: every falsy value is 0.0, an int or float gives its float value, a non-empty vector raises; strings are treated as raising (see Left out) |
| Records.GetOr | recommenders.py:79-83 | `d.get(k, default)`: the stored value when present, else the default |
| Records.LocationOf | recommenders.py:41-42 | a non-empty `location` criterion is returned and filters; a missing or empty one and `{}` filter nothing |
| Sorting.SortDesc | utils.py:24-65 | the array ends up ordered by key, non-increasing, and holds the same candidates (a permutation) |
| Sorting.InsertLast | utils.py:24-65 | one insertion pass extends the sorted prefix by one element and keeps the same candidates |
| Sorting.LexGeTotal | utils.py:24-65 | tuple comparison is total |
| Sorting.LexGeTransitive | utils.py:24-65 | tuple comparison is transitive |
| Utils.QueryText | utils.py:9 | a missing query is treated as "" |
| Utils.SelectBucketIsFirstMatch | utils.py:21-65 | the chosen bucket matches; no earlier bucket matches; the rating-only order is chosen exactly when no keyword matches |
| Utils.KeywordNesting | utils.py:21-49 | "안무서운", "안어려운", "활동적이지 않은" and "문제방" contain keywords of later buckets |
| Utils.NegatedFearSelectsLowFear | utils.py:21-28 | a query with "안무서운" also matches the fear keywords, yet selects the low-fear bucket |
| Utils.NegatedDifficultySelectsEasy | utils.py:31-35 | "안어려운" also matches the puzzle keywords, yet selects the easy bucket |
| Utils.NegatedActivitySelectsLowActivity | utils.py:45-49 | "활동적이지 않은" also matches "활동", yet selects the low-activity bucket |
| Utils.ProblemFirstIffMunje | utils.py:37-42 | the puzzle bucket ranks by problem score first exactly when "문제" occurs |
| Utils.GetVal | utils.py:12-18 | an int or float field as a float; a missing, None or other non-numeric field is 0.0 and never raises; strings are treated as non-numeric (see Left out) |
| Utils.OrientedKeyOrder | utils.py:24-65 | descending order of a key with negated ascending fields is exactly the field-by-field ordering |
| Utils.KeyIsOrientedCriteria | utils.py:24-65 | each bucket's key tuple is its stated criteria (fear ascending then rating descending, and so on) |
| Utils.KeyOrderMeansCriteria | utils.py:24-65 | sorting by a bucket's key tuple descending orders by the bucket's criteria |
| Utils.PrimaryFieldMonotone | utils.py:24-61 | in a sorted list no candidate is strictly better in the bucket's first field than one placed before it |
| Utils.SortCandidatesByQuery | utils.py:1-67 | empty or missing input gives []; otherwise the same list object is returned, as a permutation, ordered by the selected bucket |
| AppSort.AppSelectBucketIsFirstMatch | app.py:140-159 | first match wins among this variant's keywords; no keyword gives the rating order |
| AppSort.AppPuzzleKeywords | app.py:146-147 | any of "문제방", "어려운", "문제" selects the (problem, difficulty, rating) order |
| AppSort.AppKeyIsOrientedCriteria | app.py:141-159 | each key tuple of this variant is its stated criteria |
| AppSort.AppKeyOrderMeansCriteria | app.py:141-159 | sorting by this variant's key tuple orders by its criteria |
| AppSort.AppSortCandidatesByQuery | app.py:136-161 | empty input gives []; otherwise the same list object is returned, as a permutation, ordered by this variant's bucket |
| AppSort.AppLowFearRanksByRating | app.py:140-141 | in this variant a low-fear query orders by rating first |
| Recommenders.TargetUsers | recommenders.py:14-18 | a string gives exactly its ','-separated parts, each trimmed (one trimmed name without a ','); a list is used as is |
| Recommenders.FirstTen | recommenders.py:23 | only the first 10 names are queried |
| Recommenders.UsersNamed | recommenders.py:24-25 | the users returned are exactly those whose nickname is queried |
| Recommenders.CollectAll | recommenders.py:27-31 | collection succeeds iff every `played` entry parses, and then holds exactly the parsed ids |
| Recommenders.CollectStops | recommenders.py:30-33 | once `int()` raises, nothing more is collected |
| Recommenders.HistoryFailsAt | recommenders.py:27-33 | when `int()` raises on a `played` entry, the history holds exactly what was collected before it |
| Recommenders.GroupHistoryIsUnion | recommenders.py:20-31 | the history is the union of every named user's parsed `played` ids |
| Recommenders.CollectPlayed | recommenders.py:20-33 | the nested loops compute the group history; an exception keeps what was added before it |
| Recommenders.CollectFrom | recommenders.py:27-31 | the loop over users and their `played` entries computes the collected set |
| Recommenders.ExclusionSet | recommenders.py:35-36 | the exclusion set is `exclude_ids` plus every played id |
| Recommenders.CanonicalId | recommenders.py:52-53 | `int(ref_id)` (int, float or string) when `ref_id` is present, else `int(doc.id)` |
| Recommenders.ExcludedByKey | recommenders.py:54-58 | a document whose key is excluded is always dropped, even when its id does not parse |
| Recommenders.PlayedThemeExcluded | recommenders.py:36-55 | a theme whose canonical id was played is dropped |
| Recommenders.KeyedByDecimalId | recommenders.py:53-55 | a theme keyed by its decimal id is dropped when that id is excluded as an int or as a string |
| Recommenders.Scores | recommenders.py:85-92 | every rating is `float(field or 0)`; the projection raises iff one of them does |
| Recommenders.Head150 | recommenders.py:84 | `v[:150]`: a value of at most 150 characters (or items) is kept whole; a longer one keeps exactly its first 150; other values cannot be sliced |
| Recommenders.Merge | recommenders.py:78-94 | the candidate holds the descriptive fields and every rating |
| Recommenders.MergeWellFormed | recommenders.py:78-94 | the candidate's `id` is `doc.id`, `desc` is short, and absent ratings are 0 |
| Recommenders.ProjectRule | recommenders.py:68-94 | the rule-based view exists iff the description slices and every rating converts; it then has `id` = `doc.id`, title, store, location and genre as stored, the description's first 150 characters, every rating as `float(field or 0)`, and the truthy stored vector |
| Recommenders.ProjectVector | recommenders.py:199-214 | the vector-search view exists iff `search_text` slices and every rating converts; it then has `id` = `doc.id`, title, store, location and genre as stored, `search_text`'s first 150 characters, every rating as `float(field or 0)`, and no vector |
| Recommenders.VectorOf | recommenders.py:68-76 | a truthy stored vector is copied as is; anything else becomes None |
| Recommenders.UnratedThemeScoresZero | recommenders.py:85-92 | a theme with no rating fields gets 0.0 for every rating |
| Recommenders.RuleStep | recommenders.py:49-94 | a record is kept iff not excluded, inside the location and projectable; it raises iff it passes the tests but cannot be projected |
| Recommenders.ClassifyDoc | recommenders.py:51-94 | the id check with its `except` fallback, the location test and the projection decide the record's outcome exactly as `RuleStep` states |
| Recommenders.GatherRaise | recommenders.py:49-94 | the loop raises iff some record raises |
| Recommenders.GatherKept | recommenders.py:49-94 | the survivors are exactly the kept records |
| Recommenders.SurvivorsMeaning | recommenders.py:49-94 | the survivors are exactly the projections of records that pass exclusion and location |
| Recommenders.SurvivorsFiltered | recommenders.py:51-65 | every survivor comes from a record that is not excluded |
| Recommenders.SurvivorsScored | recommenders.py:85-92 | every survivor carries all eight ratings as floats |
| Recommenders.SurvivorsRaised | recommenders.py:49-94 | once the loop has raised, the whole search raises |
| Recommenders.RankedPrefixIsTop | recommenders.py:96-97 | a sorted permutation cut to `limit` is the best `limit` candidates |
| Recommenders.ScoresCoverLegacyFields | app.py:141-159 | every candidate carries the fields the older sort indexes directly |
| Recommenders.FilterDocs | recommenders.py:46-94 | the document loop computes the survivors, or raises where a projection raises |
| Recommenders.FilterStep | recommenders.py:49-94 | one turn of the loop appends the record's candidate, skips it, or raises |
| Recommenders.RankTop | recommenders.py:96-97 | sorting then slicing gives the top `limit`, ranked |
| Recommenders.SearchThemes | recommenders.py:10-97 | raises iff a surviving record cannot be projected; otherwise returns the best `limit` survivors under the query's ordering |
| Recommenders.FetchLimit | recommenders.py:185 | the store is asked for `limit + len(exclude_ids)` neighbours |
| Recommenders.UnexcludedMembers | recommenders.py:195-196 | a neighbour is kept iff its key is not in `exclude_ids` |
| Recommenders.VectorRaisesAt | recommenders.py:198-223 | a projection raising among the first kept neighbours makes the whole search return [] |
| Recommenders.VectorStopsAt | recommenders.py:194-217 | once `Cap(limit)` kept neighbours are projected, those projections are the result |
| Recommenders.VectorRunsOut | recommenders.py:194-218 | with fewer kept neighbours than the cap, the result holds all their projections |
| Recommenders.Cap | recommenders.py:216-217 | the loop stops at `limit` results, but only after appending one, so `limit == 0` gives exactly one |
| Recommenders.AllOf | recommenders.py:198-214 | all projections succeed in order, or one of them raised |
| Recommenders.VectorResultsShape | recommenders.py:185-218 | at most `Cap(limit)` results; result k is the k-th kept neighbour in store order; no result has an excluded key |
| Recommenders.UnexcludedConcat | recommenders.py:195-196 | skipping excluded keys distributes over concatenation |
| Recommenders.ExecuteVectorSearch | recommenders.py:177-223 | requests `limit + len(exclude_ids)` neighbours; returns [] when the query or a projection raises; otherwise returns the first kept neighbours in order |
| Recommenders.ContextNames | recommenders.py:231-234 | a list or comma-joined string is passed as is; a single name becomes a one-element list |
| Recommenders.UserVectors | recommenders.py:119-130 | every vector of a user who has one is collected, and only such vectors; none iff no user has one |
| Recommenders.Mean | recommenders.py:133-134 | the column mean has the vectors' width |
| Recommenders.MeanOfIdentical | recommenders.py:133-134 | the mean of copies of one vector is that vector |
| Recommenders.GroupVector | recommenders.py:105-142 | None for no names or an unreachable store; any vector it gives is non-empty |
| Recommenders.GroupVectorPresent | recommenders.py:105-142 | when the store answers and some named user has a vector, all of one width, the group vector is their mean, of that width |
| Recommenders.GroupVectorNeedsAVector | recommenders.py:132 | no named user with a vector gives no group vector |
| Recommenders.GroupVectorOfAlikeUsers | recommenders.py:119-138 | when every named user with a vector has the same vector v, the group vector is v |
| Recommenders.VectorsIgnoreHistory | recommenders.py:117-130 | play histories do not affect which vectors are collected |
| Recommenders.GroupVectorIgnoresHistory | recommenders.py:230-237 | the personalised search does not look at play history |
| Recommenders.RecommendByUserSearch | recommenders.py:230-237 | [] without a group vector; otherwise the vector search with limit 3 |
| Recommenders.RecommendByText | recommenders.py:225-228 | [] without a model; otherwise the vector search with limit 20; never more than 20 results |
| Recommenders.Score | recommenders.py:158-168 | -1 without a vector, 0 for a zero vector, otherwise the similarity of the target and the candidate's vector |
| Recommenders.WithScore | recommenders.py:168 | the candidate's `score_vec` is its score |
| Recommenders.WithScoreKeepsFields | recommenders.py:168 | scoring adds `score_vec` and changes no other field |
| Recommenders.Scored | recommenders.py:158-168 | every candidate is scored, in order |
| Recommenders.ScoreAll | recommenders.py:158-168 | the in-place loop scores every candidate |
| Recommenders.RerankCandidates | recommenders.py:144-175 | unchanged without a non-zero target vector; otherwise the scored candidates, sorted by `score_vec` descending |
| BotEngine.ActionOf | bot_engine.py:137 | a missing action is "recommend" |
| BotEngine.CallLlm | bot_engine.py:23-47 | without a client, the fixed missing-key error; when the API fails, "Groq API Error: " followed by the detail; otherwise the completion's content |
| BotEngine.AnalyzeUserIntent | bot_engine.py:90-126 | `{}` without a client; the fallback intent on an error, empty text or unparseable text; otherwise the parsed intent |
| BotEngine.FailedAnalysisRecommends | bot_engine.py:114-137 | whatever goes wrong in the analysis, the action is "recommend" |
| BotEngine.BaseUsers | bot_engine.py:165-170 | exactly the context's ','-separated parts, each trimmed; one trimmed name without a ','; [] without a context |
| BotEngine.AddedMeaning | bot_engine.py:172-174 | the appended names are exactly the mentioned users not already present, each once |
| BotEngine.Participants | bot_engine.py:165-174 | the loop yields the context's names followed by the new mentioned users, in order |
| BotEngine.ParticipantsCoverMentioned | bot_engine.py:165-174 | every mentioned user is a participant; every participant is named or mentioned; no new duplicates |
| BotEngine.FinalContext | bot_engine.py:176 | a list for two or more names, the single name for one, None for none |
| BotEngine.BlankNicknameIsNotPersonal | bot_engine.py:165-208 | a blank nickname gives the context "", which `if final_context:` treats as absent, so no personalised search runs |
| BotEngine.SearchNames | bot_engine.py:200-201 | no context gives no nicknames; one name is passed as a string, several as a list |
| BotEngine.Carried | bot_engine.py:180-190 | "another_recommend" uses the session's last filters and every shown id; any other action uses the current filters and excludes nothing |
| BotEngine.Scope | bot_engine.py:52-56 | the first min(500, n) of the n themes at exactly the given location (of all themes without one), in store order |
| BotEngine.AtLocation | bot_engine.py:54-55 | exactly the themes whose stored location equals the given one |
| BotEngine.TitleOf | bot_engine.py:61 | a string title is itself, a missing title is "", any other title cannot have spaces removed (None) |
| BotEngine.ThemeIdOf | bot_engine.py:63 | `int(ref_id or doc.id)`: `int()` of a truthy `ref_id` (int, float or string), otherwise of the document key |
| BotEngine.LookupFindsFirstMatch | bot_engine.py:59-65 | a found id belongs to the first theme whose space-free title contains the space-free name |
| BotEngine.LookupFindsIt | bot_engine.py:59-65 | the first matching theme's parsed id is found |
| BotEngine.LookupNoMatch | bot_engine.py:59-67 | no matching title means None |
| BotEngine.FindThemeId | bot_engine.py:49-70 | the scan loop returns the first match's id, or None when nothing matches or the store raises |
| BotEngine.ArrayUnion | bot_engine.py:81 | the id is present afterwards; nothing else is added; nothing is lost |
| BotEngine.ArrayRemove | bot_engine.py:84 | the id is absent afterwards; every other entry is kept |
| BotEngine.ArrayUnionIdempotent | bot_engine.py:81 | adding twice equals adding once |
| BotEngine.ArrayRemoveAbsent | bot_engine.py:84 | removing an absent id changes nothing |
| BotEngine.UnionThenRemove | bot_engine.py:81-84 | adding then removing a new id restores the history |
| BotEngine.FindUser | bot_engine.py:76-79 | the first user with the nickname, or none has it |
| BotEngine.MarkedPlayedIsExcluded | bot_engine.py:80-81 | after `played_check`, the rule-based search for that user treats the theme as played |
| BotEngine.UpdateMessage | bot_engine.py:78-88 | an unknown user, each action and a store failure each get their own message |
| BotEngine.Updated | bot_engine.py:76-88 | only the first matching user's `played` changes; failure or an unknown user changes nothing |
| BotEngine.FindUserIgnoresPlayed | bot_engine.py:76 | rewriting a history does not change whom a nickname finds |
| BotEngine.UserStore.UpdatePlayHistory | bot_engine.py:72-88 | the new collection and the message are those of `Updated` and `UpdateMessage` |
| BotEngine.NeighbourResultsScored | recommenders.py:206-213 | every vector-search result carries every rating |
| BotEngine.FilledBucketsAreNonEmpty | bot_engine.py:196-230 | a filled bucket is never empty; rule-based and text buckets hold at most 3 |
| BotEngine.RuleBasedBucket | bot_engine.py:198-205 | the rule-based bucket is present iff the search found something, and holds its top 3 |
| BotEngine.PersonalizedBucket | bot_engine.py:207-217 | for a truthy context (a list, or a non-empty name), the personalised bucket is present iff the vector search found something, and holds all of it re-sorted by the query |
| BotEngine.TextSearchBucket | bot_engine.py:220-227 | the text bucket holds the top 3 of the text search after sorting |
| BotEngine.FillBuckets | bot_engine.py:196-230 | raises iff `search_themes` raises; no match iff all three searches are empty; the personalised search runs only for a truthy context; the text search fills its bucket only when both others are empty |
| BotEngine.ReplyText | bot_engine.py:268-273 | the model's reply when non-empty and free of "Error:"; an apology followed by the text when it holds "Error:" or the API failed; an apology with "No response returned" for no text |
| BotEngine.Engine.PlayHistoryTurn | bot_engine.py:140-155 | a missing nickname, a missing theme and an unresolved theme each get their own message and leave the users untouched; otherwise the users are those of `Updated` and the text is `update_play_history`'s message with the location and theme; buckets and filters are always empty |
| BotEngine.PlayedTwiceIsOnce | bot_engine.py:140-155 | two `played_check` turns for the same theme leave the users as one does |
| BotEngine.Engine.GenerateReply | bot_engine.py:128-278 | without a client, an error reply before any retrieval; play actions give empty buckets with the text and users of the play-history turn; other actions fill buckets as `FillBuckets` states, with the carried filters, and leave the users untouched |
| App.AppCallLlm | app.py:439-454 | None without a client or on an API failure |
| App.AppAnalyzeUserIntent | app.py:496-521 | `{}` without a client; `{"action": "recommend"}` when there is no text or it does not parse |
| App.ErrorTextIsParsedHere | app.py:514-516 | unlike bot_engine.py, text holding "Error:" is parsed, not replaced by the fallback |
| App.Items | app.py:542-544 | the intent's items, or one `{location, theme}` item made from the theme |
| App.ThemedItems | app.py:547-550 | exactly the items that name a theme: all of a list whose items all do, none of one where none does |
| App.ThemedItemsConcat | app.py:547-550 | selecting themed items works piece by piece, so they keep their order |
| App.ThemedItemsReported | app.py:546-557 | exactly one line per themed item, in order; an unresolved theme reports "⚠️ 테마 못 찾음" and later items still run |
| App.AppliedKeepsUsers | app.py:553 | the successive updates leave every nickname finding the same user |
| App.ItemsApplied | app.py:546-557 | after recording items as played the user holds every resolved id; after recording them as not played the user holds none |
| App.AppEngine.RecordItems | app.py:546-557 | the loop produces the item lines and applies one update per resolved id, in order |
| App.AppEngine.RecordItem | app.py:547-557 | an item without a theme gives no line; otherwise one line, and the history changes only when the theme resolves to a non-zero id |
| App.AppEngine.PlayHistoryTurn | app.py:533-557 | the inquiry gets fixed instructions before the nickname check; without a nickname, guidance; otherwise the joined item lines and the users after one update per resolved id |
| App.AppEngine.GenerateReply | app.py:523-628 | as in bot_engine.py, but with the inquiry and multi-item branch (its text and users carried up), the older sort, and the model's raw answer (None on failure) as the text |

## Left out

- Streamlit UI, session-state logging, the sidebar, `print` and `log_msg` output: UI and diagnostics.
- Firebase, embedding-model initialisation, secrets, database.py, models.py and config.py: configuration without logic.
- The store's query builders (`where`, `order_by`, `limit(100)`, `stream`, `find_nearest`): their answers are inputs. In particular the `location ==` filter and the top-100 rating order of `search_themes` are folded into the `docs` input, and the location filter and vector of `_execute_vector_search` into `neighbours`.
- `ArrayUnion`/`ArrayRemove` run server-side; the model applies their documented effect to the `played` sequence.
- Groq and Tavily calls, prompt texts and the `context_str` text with its `:.1f` formatting: foreign services and float formatting. A completion is an input and `json.loads` is the parameter `parse`.
- Records.ToFloat: `float()` on numeric strings (for example "4.5") is treated as raising, because decimal-string parsing is not modelled.
- Records.IntOf: `int()` on strings accepts only an optional sign and ASCII digits, without surrounding whitespace or underscores.
- Records.Display: renders only None, ints and strings; float rendering is not modelled.
- Text.Strip: strips the ASCII whitespace `str.isspace()` accepts (space, \t, \n, \r, \v, \f, U+001C to U+001F); non-ASCII whitespace such as U+0085, U+00A0 or U+3000 is not modelled.
- Recommenders.GroupVector: the normalisation by the norm is left out (numpy floating point). Python's `if not target_vec` is modelled as "no vector", and a zero mean is still a vector.
- Recommenders.Score: the cosine similarity is an input function; its numerics are not modelled.
- Recommenders.RerankCandidates: a candidate vector whose width differs from the target's, where `np.dot` raises and the `except` returns the list partly scored and unsorted, is not modelled; every vector is scored by the input similarity.
- Records.RatingOf: a numeric string rating such as "4.5", which `float()` converts, is treated as raising, so the projection of such a record fails; decimal-string parsing is not modelled.
- Utils.GetVal: a numeric string field such as "4.5", which `float()` converts, is given 0.0; decimal-string parsing is not modelled.
- App.AppEngine.RecordItems: one store-failure input stands for every `update_play_history` call of a multi-item turn, so either every update fails or none does; a failure of one item beside successes of others is not modelled.
- Recommenders.UserVectors: only vector-valued embeddings are modelled. Decoding Firestore `Vector` objects through `to_map` and other truthy non-vector values are library-specific.
- Recommenders.GroupVector: vectors of differing widths, where numpy raises or builds a ragged array, are modelled as None.
- Recommenders.ProjectRule: the stored vector is copied when truthy; `to_map` decoding and the `except: pass` around it are left out.
- Recommenders.RecommendByText: the encoding raising inside the model is not modelled; `queryVector` is the encoding or None without a model.
- Recommenders.SearchThemes: `limit` is a natural number; Python's negative slicing is not modelled.
- Sorting.SortDesc: stability is implemented (equal keys never swap) but not stated as a postcondition.
- Utils.SortCandidatesByQuery: ties at equal keys are not pinned; Python's stable sort keeps their input order, the contract allows any order among them.
- AppSort.AppSortCandidatesByQuery: ties at equal keys are not pinned; Python's stable sort keeps their input order, the contract allows any order among them.
- Recommenders.RankTop: ties at equal keys are not pinned, so which of several equal-key candidates survive the cut to `limit` is left open; Python keeps the earliest in input order.
- Recommenders.SearchThemes: ties at equal keys at the cut to `limit` are not pinned (see RankTop); for example, in the rating-only order, which of several equally rated themes are returned.
- Recommenders.RerankCandidates: ties at equal `score_vec` (for example every candidate without a vector, at -1) are not pinned; Python's stable sort keeps their input order.
- BotEngine.FillBuckets: the buckets inherit the RankTop gap: which tied candidates fill a bucket of 3 is left open.
- AppSort.AppSortCandidatesByQuery: requires every candidate to carry the fields its bucket indexes, where Python would raise `KeyError`; every candidate the recommenders build carries them (`ScoresCoverLegacyFields`).
- BotEngine.Intent: JSON values of unexpected types (a number as theme, null lists, a non-object answer) are not modelled; missing fields take their defaults.
- BotEngine.Engine.GenerateReply: `search_themes` raising propagates and is modelled as a None reply. `session_context` is `{}`-or-dict, as `Session`.
- BotEngine.UserStore.UpdatePlayHistory: a failing store is an input message that leaves the users unchanged; partial writes are not modelled.

# PhoenixAdult metadata provider — a Dafny model of `Provider.cs`

This project models the core of the PhoenixAdult Jellyfin plugin: the
`Provider` class that turns a free-text media title into a scene record.

* `GetSearchResults` resolves the title. It expands abbreviations and finds
  the site, retrying once with the configured default site name or a guessed
  site name. It then clears the site token and a date out of the title, and
  falls back on the premiere-date hint for the date. It dispatches the search
  to the site's provider, trims every candidate's name, sets its production
  year, and ranks the candidates by a three-tier stable sort: index number,
  then distance in days to the search date, then `100 - Levenshtein`
  similarity to the search title.
* `GetMetadata` takes the scene's external id `network#site#part...` from the
  title or from the best search result. It splits and decodes the id, asks the
  site's provider to `Update`, and, when the returned record has a name,
  normalizes it in place. Normalization marks the record, rates it `"XXX"`,
  restores the provider id, decodes and trims name and overview,
  de-duplicates the studios, derives the production year, runs the actor and
  genre clean-ups, and stores the URL id under the plugin name followed by
  `"URL"`.

Layout, one module per concern:

| file | module | what it holds |
|---|---|---|
| `wrappers.dfy` | `Wrappers` | `Option` |
| `text.dfy` | `Text` | .NET `String.Trim` and ordinal case-insensitive equality |
| `numerals.dfy` | `Numerals` | `int.Parse` on 32-bit integers and `ToString()` |
| `calendar.dfy` | `Calendar` | `DateTime` days: `Year` and `ToString("yyyy-MM-dd")` |
| `entities.dfy` | `Entities` | the records, the provider outcomes, and the collaborators |
| `ranking.dfy` | `Ranking` | the stable LINQ ordering as one insertion sort |
| `external_id.dfy` | `ExternalId` | `Split('#')`, `Skip(2)` and the id round trip |
| `search.dfy` | `Search`, `SearchProperties` | `GetSearchResults` and what it promises |
| `metadata.dfy` | `Metadata` | `GetMetadata`, the in-place normalization, the studio loop |
| `metadata_properties.dfy` | `MetadataProperties` | what the returned record satisfies |

Some code is not part of the repository's core source. This covers the title
helpers over the site table, the provider registry and the per-site
providers' `Search` and `Update`, Levenshtein distance, HTML decoding, title
casing, and the actor and genre clean-ups. Each of these is a function-typed
field of `Entities.Collaborators`, so every proof holds for every behaviour
they may have. A provider call that throws is the `SearchThrew` or
`UpdateThrew` outcome. The configured default site name is a parameter.

The search candidates are values updated element by element in a loop
(`Search.CleanUpAll`). The metadata record is a pair of classes, `Movie` and
`MetadataResult`, whose fields the methods `Prepare`, `SetStudiosAndYear`
and `Normalize` update in place. Each method is proved equal to a
specification function (`CleanedUp`, `ResolveQuery`, `SearchResults`,
`Prepared`, `Normalized`, `MetadataFor`). The properties are proved as lemmas
about those functions.

Two behaviours of the code are easy to misread:

* Studio de-duplication is exact, not case-insensitive. Studios are compared
  with `List.Contains` after trimming and title-casing (Provider.cs:245). The
  invariant culture's `ToTitleCase` leaves an all-capitals word as it is. So
  `["abc films", "ABC Films", " Other "]` gives three studios
  (`MetadataProperties.StudioExample`).
* A record that `Update` returns with an empty name is returned exactly as
  `Update` built it. That includes its own has-metadata flag, which the code
  does not reset (`MetadataProperties.UpdateOutcomes`).

## Model

| member | source | states |
|---|---|---|
| Text.TrimIsWhiteSpaceFreeInfix | Jellyfin.Plugin.PhoenixAdult/Core/Provider.cs:148 | `Trim` returns a contiguous piece of its input, everything cut off on either side is white space, and the result neither starts nor ends with white space |
| Text.Trim | Jellyfin.Plugin.PhoenixAdult/Core/Provider.cs:148 | `String.Trim` never lengthens its input and never leaves white space at the end; the full characterization is `Text.TrimIsWhiteSpaceFreeInfix` |
| Text.TrimIdempotent | Jellyfin.Plugin.PhoenixAdult/Core/Provider.cs:146-153 | trimming a trimmed name changes nothing, so a candidate object listed twice ends up as if listed once |
| Text.DifferentLengthsDiffer | Jellyfin.Plugin.PhoenixAdult/Core/Provider.cs:75 | strings of different lengths never compare equal ignoring case |
| Numerals.DigitsValueOfNatToText | Jellyfin.Plugin.PhoenixAdult/Core/Provider.cs:207 | reading back the decimal digits of a natural number gives the number |
| Numerals.ParseInt32 | Jellyfin.Plugin.PhoenixAdult/Core/Provider.cs:207 | `int.Parse` yields a value in the 32-bit range |
| Numerals.ParseIntToText | Jellyfin.Plugin.PhoenixAdult/Core/Provider.cs:207 | every 32-bit integer printed in decimal is text `int.Parse` accepts, and parses back to the integer |
| Calendar.Decompose | Jellyfin.Plugin.PhoenixAdult/Core/Provider.cs:151 | a day number splits into whole 400-, 100-, 4- and 1-year cycles and a day of the year, where only the last 1-year cycle of a 4-year cycle that is not the last of a 100-year cycle, or of a 400-year cycle, has a 366th day |
| Calendar.ToCivil | Jellyfin.Plugin.PhoenixAdult/Core/Provider.cs:151 | the `DateTime` decomposition of a day number yields a year of at least 1, a month in 1..12 and a day of at least 1 |
| Calendar.CycleYear | Jellyfin.Plugin.PhoenixAdult/Core/Provider.cs:255 | the year whole cycles reach has exactly those cycles' days before it, and is a Gregorian leap year exactly when the decomposition grants it a 366th day |
| Calendar.ToCivilIsValid | Jellyfin.Plugin.PhoenixAdult/Core/Provider.cs:151 | every day number gives a real Gregorian date: year in 1..9999, and a day within its month's length under the leap rule |
| Calendar.ToCivilCountsBack | Jellyfin.Plugin.PhoenixAdult/Core/Provider.cs:151 | counting the Gregorian days before the date the decomposition yields gives back the day number, so the year, month and day are the calendar's own |
| Calendar.YearOf | Jellyfin.Plugin.PhoenixAdult/Core/Provider.cs:151 | `DateTime.Year` is always in 1..9999; the year itself is pinned down by `Calendar.ToCivilCountsBack` |
| Calendar.FirstDayExample | Jellyfin.Plugin.PhoenixAdult/Core/Provider.cs:151 | day 0 is 0001-01-01 |
| Calendar.LastDayExample | Jellyfin.Plugin.PhoenixAdult/Core/Provider.cs:151 | the last day a `DateTime` holds is 9999-12-31 |
| Calendar.LeapDayExample | Jellyfin.Plugin.PhoenixAdult/Core/Provider.cs:255 | 2020 is a leap year: day 737483 is 2020-02-29 |
| Calendar.CenturyExample | Jellyfin.Plugin.PhoenixAdult/Core/Provider.cs:255 | 1900 is not a leap year: day 693654 is 1900-03-01 |
| Calendar.QuadricentennialExample | Jellyfin.Plugin.PhoenixAdult/Core/Provider.cs:255 | 2000 is a leap year although it ends a century: day 730484 is 2000-12-31 |
| Calendar.FormatDate | Jellyfin.Plugin.PhoenixAdult/Core/Provider.cs:103 | the "yyyy-MM-dd" text of a date is never empty (at least ten characters) |
| Calendar.FormatDateExample | Jellyfin.Plugin.PhoenixAdult/Core/Provider.cs:114 | day 737433 is written "2020-01-10", zero-padded |
| ExternalId.Split | Jellyfin.Plugin.PhoenixAdult/Core/Provider.cs:201 | `Split('#')` yields at least one token and no token holds a '#' |
| ExternalId.Decode | Jellyfin.Plugin.PhoenixAdult/Core/Provider.cs:201-207 | an id is rejected exactly when it has fewer than three tokens; otherwise network and site are 32-bit numbers and `Update` gets at least one token, none holding a '#' |
| ExternalId.JoinSplit | Jellyfin.Plugin.PhoenixAdult/Core/Provider.cs:201 | joining the tokens of a split with '#' gives the id back |
| ExternalId.SplitJoin | Jellyfin.Plugin.PhoenixAdult/Core/Provider.cs:201 | splitting the join of '#'-free tokens gives the tokens back |
| ExternalId.DecodeSplitsOffHead | Jellyfin.Plugin.PhoenixAdult/Core/Provider.cs:201-216 | an id is rejected exactly when it has fewer than three tokens; otherwise `Update` gets exactly the tokens after the first two, and the two leading tokens joined in front of them restore the id |
| ExternalId.DecodeEncode | Jellyfin.Plugin.PhoenixAdult/Core/Provider.cs:201-216 | an id built from 32-bit network and site numbers and at least one '#'-free scene token decodes to exactly those values |
| ExternalId.EncodeWithoutPartsRejected | Jellyfin.Plugin.PhoenixAdult/Core/Provider.cs:202-205 | an id made of the network and site numbers alone is rejected |
| Ranking.Insert | Jellyfin.Plugin.PhoenixAdult/Core/Provider.cs:157-165 | insertion adds exactly the one element: same multiset plus it |
| Ranking.SortDescending | Jellyfin.Plugin.PhoenixAdult/Core/Provider.cs:157-165 | the sort keeps the length and the multiset of its input |
| Ranking.SortIsDescending | Jellyfin.Plugin.PhoenixAdult/Core/Provider.cs:157-165 | no element of the sorted list has a larger key than one before it |
| Ranking.SortStable | Jellyfin.Plugin.PhoenixAdult/Core/Provider.cs:157-165 | the elements with any one key come out in their input order (LINQ's ordering is stable) |
| Ranking.SortTwo | Jellyfin.Plugin.PhoenixAdult/Core/Provider.cs:157-165 | two elements swap exactly when the second has the strictly larger key |
| Search.CleanedUp | Jellyfin.Plugin.PhoenixAdult/Core/Provider.cs:146-153 | the clean-up keeps the list's length and cleans up each candidate at its own position |
| Search.CleanUp | Jellyfin.Plugin.PhoenixAdult/Core/Provider.cs:148-152 | a cleaned-up candidate's name is its own trim; the other fields are stated in `SearchProperties.CleanUpChangesNameAndYearOnly` |
| Search.CleanUpAll | Jellyfin.Plugin.PhoenixAdult/Core/Provider.cs:146-153 | the `foreach` loop leaves exactly the cleaned-up list |
| Search.FindSite | Jellyfin.Plugin.PhoenixAdult/Core/Provider.cs:61-87 | the step-by-step site lookup computes `LocateSite`: the first lookup, or the single retry when allowed |
| Search.Rank | Jellyfin.Plugin.PhoenixAdult/Core/Provider.cs:155-166 | whichever tier applies, the ranking is a permutation of the candidates: it never adds, drops or changes one |
| Search.Resolve | Jellyfin.Plugin.PhoenixAdult/Core/Provider.cs:61-121 | the step-by-step resolution computes `ResolveQuery` |
| Search.GetSearchResults | Jellyfin.Plugin.PhoenixAdult/Core/Provider.cs:50-171 | the method returns `SearchResults`, the ranked cleaned-up candidates or the empty list |
| SearchProperties.ResolutionFailure | Jellyfin.Plugin.PhoenixAdult/Core/Provider.cs:61-87 | no site is found exactly when the first lookup fails and the retry is not allowed or fails too; resolution fails exactly when no site is found or the cleared title is empty, and then the result is empty |
| SearchProperties.DefaultSiteNameAlwaysRetried | Jellyfin.Plugin.PhoenixAdult/Core/Provider.cs:66-76 | with a default site name configured the retry always happens |
| SearchProperties.ResolvedQueryFields | Jellyfin.Plugin.PhoenixAdult/Core/Provider.cs:89-121 | a resolved query has a non-empty title, the found site's numbers, the title's date or else the premiere-date hint, and a date text exactly when it has a date |
| SearchProperties.CleanUpChangesNameAndYearOnly | Jellyfin.Plugin.PhoenixAdult/Core/Provider.cs:146-153 | clean-up trims the name, sets the year from the premiere date when there is one, changes no other field, and is idempotent |
| SearchProperties.WithKeyIsWithIndexNumber | Jellyfin.Plugin.PhoenixAdult/Core/Provider.cs:157 | two candidates share an index-tier key exactly when they share an index number |
| SearchProperties.IndexTier | Jellyfin.Plugin.PhoenixAdult/Core/Provider.cs:155-158 | with any index number present, indexed candidates precede the others in non-increasing index order, and candidates sharing an index number (or having none) keep their input order |
| SearchProperties.DateTier | Jellyfin.Plugin.PhoenixAdult/Core/Provider.cs:159-162 | when the date tier applies, candidates come in non-decreasing absolute day distance from the search date, equal distances in input order |
| SearchProperties.TextTier | Jellyfin.Plugin.PhoenixAdult/Core/Provider.cs:163-166 | otherwise candidates come in non-increasing `100 - distance`, equal scores in input order |
| SearchProperties.SearchOutcomes | Jellyfin.Plugin.PhoenixAdult/Core/Provider.cs:127-144 | no provider or a throwing search gives the empty list; otherwise the result is a permutation of the cleaned-up candidates |
| SearchProperties.RankedAreCleanedUp | Jellyfin.Plugin.PhoenixAdult/Core/Provider.cs:146-166 | after ranking, every candidate has a trimmed name and its premiere year as production year |
| SearchProperties.SearchResultsCleanedUp | Jellyfin.Plugin.PhoenixAdult/Core/Provider.cs:50-171 | every returned candidate has a trimmed name and, when dated, its premiere year as production year |
| SearchProperties.IndexSortExample | Jellyfin.Plugin.PhoenixAdult/Core/Provider.cs:157 | index 1, index 3 and no index sort as index 3, index 1, none |
| SearchProperties.IndexTierExample | Jellyfin.Plugin.PhoenixAdult/Core/Provider.cs:155-158 | candidates A (index 1), B (index 3), C (none) rank B, A, C whatever the query |
| SearchProperties.DateTierExample | Jellyfin.Plugin.PhoenixAdult/Core/Provider.cs:159-162 | a candidate one day from the search date outranks one five days away listed before it |
| SearchProperties.TextTierExample | Jellyfin.Plugin.PhoenixAdult/Core/Provider.cs:163-166 | an exact name outranks a misspelt one listed before it |
| Metadata.DistinctElements | Jellyfin.Plugin.PhoenixAdult/Core/Provider.cs:239-251 | de-duplication keeps exactly the elements of its input |
| Metadata.DistinctNoDuplicates | Jellyfin.Plugin.PhoenixAdult/Core/Provider.cs:239-251 | de-duplication leaves no element twice |
| Metadata.DistinctFirstSeenOrder | Jellyfin.Plugin.PhoenixAdult/Core/Provider.cs:239-251 | kept elements appear in the order of their first occurrences in the input |
| Metadata.DistinctWithoutDuplicates | Jellyfin.Plugin.PhoenixAdult/Core/Provider.cs:239-251 | a list without duplicates is its own de-duplication |
| Metadata.DistinctOfDistinct | Jellyfin.Plugin.PhoenixAdult/Core/Provider.cs:239-251 | de-duplicating twice is de-duplicating once |
| Metadata.NormalizedStudios | Jellyfin.Plugin.PhoenixAdult/Core/Provider.cs:240-243 | each studio is trimmed then title-cased, at its own position |
| Metadata.SceneExternalId | Jellyfin.Plugin.PhoenixAdult/Core/Provider.cs:186-199 | the title's own id under the plugin key is the one used; there is no id only when the title carries none; the fallback to the search is `MetadataProperties.SearchedIdFallback` |
| Metadata.DistinctStudios | Jellyfin.Plugin.PhoenixAdult/Core/Provider.cs:239-251 | the studio loop with its `Contains` guard computes the de-duplication of the normalized studios |
| Metadata.Movie.constructor | Jellyfin.Plugin.PhoenixAdult/Core/Provider.cs:175-179 | a new record holds the given field values |
| Metadata.MetadataResult.constructor | Jellyfin.Plugin.PhoenixAdult/Core/Provider.cs:175-179 | a new result holds the given flag, a fresh record and the given people |
| Metadata.SetStudiosAndYear | Jellyfin.Plugin.PhoenixAdult/Core/Provider.cs:239-256 | in place: studios de-duplicated, production year from the premiere date, every other field unchanged |
| Metadata.Prepare | Jellyfin.Plugin.PhoenixAdult/Core/Provider.cs:229-256 | in place, the record becomes `Prepared` of its old value |
| Metadata.Normalize | Jellyfin.Plugin.PhoenixAdult/Core/Provider.cs:228-271 | in place, the result becomes `Normalized` of its old value and keeps the same record object |
| Metadata.GetMetadata | Jellyfin.Plugin.PhoenixAdult/Core/Provider.cs:173-276 | returns a fresh result equal to `MetadataFor`; `Update` is called exactly when an id is found, has at least three tokens and names a registered provider, and then with the id's decoded network and site numbers and the tokens after the first two |
| MetadataProperties.UrlKeyDiffers | Jellyfin.Plugin.PhoenixAdult/Core/Provider.cs:270 | the URL key never equals the plugin's own key |
| MetadataProperties.NormalizedIds | Jellyfin.Plugin.PhoenixAdult/Core/Provider.cs:230 | after normalization the plugin's key holds the full external id, the URL key holds the URL id when the record has one and is untouched otherwise, and every other id is kept |
| MetadataProperties.NormalizedRecord | Jellyfin.Plugin.PhoenixAdult/Core/Provider.cs:226-271 | a normalized record holds metadata, is rated "XXX", has a decoded name without outer white space, keeps an empty overview empty, takes its year from the premiere date, skips the clean-ups for an empty cast or genre list, otherwise takes the actor clean-up of the prepared record and the genre clean-up under the new name and cast, and keeps date and URL id |
| MetadataProperties.NormalizedNameIsTrimmed | Jellyfin.Plugin.PhoenixAdult/Core/Provider.cs:232 | the normalized name is its own trim |
| MetadataProperties.NormalizedStudioList | Jellyfin.Plugin.PhoenixAdult/Core/Provider.cs:239-251 | the normalized studios hold no duplicates, are exactly the trimmed and title-cased input studios, in first-seen order, and de-duplicating them again changes nothing |
| MetadataProperties.StudioExample | Jellyfin.Plugin.PhoenixAdult/Core/Provider.cs:239-251 | with invariant-culture title-casing, "abc films", "ABC Films", " Other " stay three studios |
| MetadataProperties.NoIdNoMetadata | Jellyfin.Plugin.PhoenixAdult/Core/Provider.cs:186-212 | no id, an id of fewer than three tokens, or an unregistered network all give the empty record without metadata |
| MetadataProperties.UpdateOutcomes | Jellyfin.Plugin.PhoenixAdult/Core/Provider.cs:214-226 | a throwing `Update` gives the empty record without metadata; a record with an empty name is returned as `Update` built it; any other is normalized under the full external id |
| MetadataProperties.NamedResultIsIdentified | Jellyfin.Plugin.PhoenixAdult/Core/Provider.cs:173-276 | any returned record with a name holds metadata and carries the scene's full external id under the plugin's key |
| MetadataProperties.OwnIdWins | Jellyfin.Plugin.PhoenixAdult/Core/Provider.cs:186-194 | when the title already carries the plugin's key, its id is used and no search result is consulted |
| MetadataProperties.SearchedIdFallback | Jellyfin.Plugin.PhoenixAdult/Core/Provider.cs:186-199 | when the title has no id under the plugin key, the id is that of the best-ranked search result, and there is none when the search finds nothing or that result has no id under the key |

## Left out

- Logging and the `Analitycs.Send` telemetry (Provider.cs:141, 223): output only, no effect on the result.
- `async`/`await` and the `CancellationToken`: every provider call is one atomic outcome.
- `GetImageResponse` (Provider.cs:278-287): a plain HTTP request.
- `Helpers/Utils/Database.cs` is not part of this model: downloading and deserializing the site tables is I/O.
- `Configuration/PluginConfiguration.cs` is not part of this model beyond `DefaultSiteName`, which is a parameter.
- The `searchInfo == null` and `info == null` guards (Provider.cs:54-57, 181-184): the model's inputs are values that always exist.
- The `NullReferenceException` of a null candidate name at `scene.Name.Trim()` (Provider.cs:148): it is outside any `try`, so it escapes `GetSearchResults` and, through the search at Provider.cs:189, `GetMetadata` too. The model takes the name as "" and returns normally.
- The `NullReferenceException` of a null studio at `studio.Trim()` (Provider.cs:242): it is outside any `try` and escapes `GetMetadata`. The model takes the studio as "" and goes on.
- Null strings and lists: a C# `null` string is the empty string, which the `IsNullOrEmpty` tests treat alike. `result.People == null` and `Item.Genres == null` become empty lists. A provider returning a null list is not modelled.
- Internals of the helpers whose code is not in the core (abbreviations, site table, title clearing, date extraction, provider registry, per-site providers, Levenshtein, HTML decoding, title casing, actor and genre clean-up): they are arbitrary functions.
- Time of day and fractional `TotalDays` (Provider.cs:159-161): dates are whole day numbers, so the date-tier distance is a whole number of days.
- Numerals.ParseInt32: does not model the `FormatException` and `OverflowException` of `int.Parse`, nor the leading and trailing white space it accepts. A precondition (`Metadata.IdParses`) requires the two leading id tokens to be plain 32-bit decimal text.
- Text.EqualsOrdinalIgnoreCase: folds ASCII letters only, not the full Unicode upper-casing of `OrdinalIgnoreCase`.
- Aliasing of candidate objects: the candidates are values, so a provider listing one object twice is not modelled as sharing. Clean-up is idempotent (`SearchProperties.CleanUpChangesNameAndYearOnly`), so the outcome is the same.
- `ProviderIds.Update` is taken to add or replace the key.
- Provider-id keys are compared exactly. The host creates its provider-id dictionaries with a case-insensitive key comparer. A key that differs from the plugin key or from the URL key only in case is therefore not modelled. The program would find such a key at Provider.cs:187 and 196, and would overwrite it at Provider.cs:230 and 270. `MetadataProperties.NormalizedIds`, `MetadataProperties.OwnIdWins` and `MetadataProperties.SearchedIdFallback` hold for exact keys only.
- Calendar.FormatDate: states only that the text has at least ten characters. Its exact digits are shown on examples (`Calendar.FormatDateExample`), not proved for every date.

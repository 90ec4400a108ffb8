# FarmConnect core in Dafny

FarmConnect is a farm-management web application for Indian farmers. A
farmer registers, fills in a profile (lands, crops, livestock), browses
government schemes, bookmarks and applies for them, and gets weather, market
prices and a voice assistant. This project models the logic at its core:

- **Store** — the in-memory database (users, farmers, lands, crops, livestock,
  schemes, applications, bookmarks, notifications, farmer statistics), as an
  immutable `Db` of tables kept in insertion order, like a JavaScript `Map`.
  Ids and the clock are parameters.
- **Scorer / Ranking** — scheme recommendation. Each active scheme gets a
  match percentage from the state, crop, land-size, age and category
  criteria. The model keeps schemes scoring at least 50, annotates each with
  bookmark and application status, and sorts by percentage (stable,
  descending).
- **Routes** — the HTTP handlers whose logic is more than a storage call:
  the duplicate-username guard on registration, the recommendation fallback
  for incomplete profiles, the merge of AI insights, the notification on
  application submission, bookmark removal, and the keyword-driven voice
  command router.
- **Assistant** — the OpenRouter service. Requests and their failure modes,
  the offline fallback answer chosen from the last message, scheme
  generation, eligibility analysis, translation and the language-name table.
  The network reply, its parsing and `Math.random` draws are parameters.
- **Weather** — the weather service: mock data for missing keys and failures,
  grouping of the 3-hourly forecast into days, the heat/humidity/wind alerts
  and the farming advice.
- **Translations** — the interface-string lookup with its English and
  key-as-text fallbacks.
- **Client pages** — the schemes page (search, joins with bookmarks and
  applications, bookmark toggle, application URL), the scheme card (badges,
  match colour, deadline text), the market page (commodity grouping, trend
  styling), and the register and profile forms (field validation, step
  navigation, submission effects).

The routes (`server/routes.ts`) call the database-backed storage
(`DatabaseStorage`, `server/storage.ts`), whose query-builder calls go to the
`db` that `server/db.ts` exports, an `InMemoryDatabase`. The model keeps one
store, `Store`, with the in-memory database's semantics. Where a route
depends on a query whose result differs from the in-memory method, the
model follows the database-backed storage:

- `Routes.DeleteBookmarkRoute` removes every bookmark of the pair, as
  `deleteBookmark`'s single `DELETE … WHERE` does
  (`Store.DeleteAllBookmarks`). The in-memory method removes the first
  match only (`Store.DeleteBookmark`).
- `Routes.Newest` takes the active schemes ordered by `createdAt`
  descending, as `getSchemes` does. The in-memory method keeps table order
  (`Store.GetSchemes`).
- `Ranking.RecommendFor` reads the farmer's applications ordered by
  `submittedAt` descending, as `getApplicationsByFarmerId` does.
- `Store.FarmerStats` follows the in-memory `getFarmerStats`. The SQL
  aggregates of the database-backed method compute the same four numbers:
  `SUM` skips a missing benefit, as `|| 0` adds nothing for it.
- `Routes.Register` and `Routes.SubmitApplication` run the lookups and
  inserts that both storages share (create user, create farmer, create
  application, create notification).

Shared pieces: `Wrappers` (Option), `Seqs` (filter, subsequence), `Text`
(ASCII lower-casing, substring containment, digit strings), `Entities` (the
records of the schema), `Sorting` (stable insertion sort by a key) and
`Tables` (keyed tables with `Map.set` semantics).

## Model

| member | source | states |
|---|---|---|
| Store.GetUser | server/db.ts:138-141 | finds a user exactly when the table holds that id, and the user returned carries that id |
| Store.GetUserByUsername | server/db.ts:143-145 | nothing is found exactly when no user has that username; a hit is a stored user with that username |
| Store.CreateUser | server/db.ts:147-156 | only the users table changes; afterwards the id looks up the new user stamped with the clock; a fresh id is appended at the end |
| Store.GetFarmer | server/db.ts:159-161 | finds a farmer exactly when the id is stored |
| Store.GetFarmerByUserId | server/db.ts:163-165 | nothing is found exactly when no farmer belongs to that user; a hit is the first farmer of that user in table order |
| Store.NewFarmer | server/db.ts:167-178 | the created farmer is the input with a new id, unverified, both timestamps set to now, and otherwise unchanged |
| Store.CreateFarmer | server/db.ts:167-178 | the new farmer is found under its id and is unverified; every other id looks up what it did before; only the farmers table changes |
| Store.PatchLaws | server/db.ts:180-187 | an empty patch changes nothing, applying a patch twice equals applying it once, and a patch never changes the id |
| Store.UpdatedFarmer | server/db.ts:180-187 | an unknown id gives nothing; otherwise the stored farmer with the patch applied and `updatedAt` set to now |
| Store.UpdateFarmer | server/db.ts:180-187 | an unknown id leaves the store as it was; otherwise that farmer becomes the patched one in place, with table size and all other farmers unchanged |
| Store.LandsOf | server/db.ts:190-192 | exactly the farmer's lands, in table order |
| Store.CreateLand | server/db.ts:194-203 | the new land is found under its id with the clock stamped; a fresh id appends; only the lands table changes |
| Store.CropsOf | server/db.ts:206-208 | exactly the farmer's crops, in table order |
| Store.CreateCrop | server/db.ts:210-219 | the new crop is found under its id; a fresh id appends; only the crops table changes |
| Store.LivestockOf | server/db.ts:222-224 | exactly the farmer's livestock, in table order |
| Store.CreateLivestock | server/db.ts:226-235 | the new animal record is found under its id; a fresh id appends; only the livestock table changes |
| Store.ProfileOf | server/storage.ts:105-119 | a profile exists exactly for a stored farmer id; it holds that stored farmer and exactly the farmer's lands, crops and livestock |
| Store.GetSchemes | server/db.ts:237-240 | exactly the active schemes, in table order |
| Store.GetScheme | server/db.ts:242-244 | finds a scheme exactly when the id is stored, active or not |
| Store.CreateScheme | server/db.ts:246-256 | the new scheme is found under its id with both timestamps set to now; a fresh id appends |
| Store.ApplicationsOf | server/db.ts:259-261 | exactly the farmer's applications, in table order |
| Store.CreateApplication | server/db.ts:263-272 | the new application is found under its id with `submittedAt` set to now; a fresh id appends |
| Store.BookmarksOf | server/db.ts:275-277 | exactly the farmer's bookmarks, in table order |
| Store.CreateBookmark | server/db.ts:279-288 | the new bookmark for (farmer, scheme) is found under its id; a fresh id appends; duplicates are allowed |
| Store.PairCount | server/db.ts:290-296 | counts the bookmarks of one (farmer, scheme) pair: zero exactly when none exists |
| Store.DeleteBookmark | server/db.ts:290-296 | with no bookmark for the pair the store is unchanged; otherwise the first bookmark of the pair in table order is removed and the others stay in order, so the pair loses one and every other pair's count is unchanged |
| Store.DeleteAllBookmarks | server/storage.ts:350-357 | every bookmark of the pair is removed and nothing else: the table shrinks by the pair's count, every other bookmark stays in order, and with none for the pair the store is unchanged |
| Store.AddTwiceDeleteOnce | server/db.ts:279-296 | bookmarking a scheme twice and removing it once leaves one more bookmark of that pair than before |
| Store.AddThenRemoveLeavesNone | server/db.ts:279-296 | adding then removing a bookmark for a pair that had none leaves none |
| Store.NotificationsOf | server/db.ts:299-303 | a permutation of the farmer's notifications, newest first, with notifications of equal time kept in table order |
| Store.CreateNotification | server/db.ts:305-314 | the new notification is found under its id with the clock stamped; a fresh id appends |
| Store.MarkNotificationAsRead | server/db.ts:316-321 | an unknown id changes nothing; otherwise only that notification becomes read, in place |
| Store.MarkAllNotificationsAsRead | server/db.ts:323-329 | every notification of the farmer becomes read in place and every other notification is untouched |
| Store.MarkedOwnNotifications | server/db.ts:323-329 | marking the farmer's notifications one by one through `Map.set` yields the "all mine read, rest untouched" table |
| Store.FarmerStats | server/db.ts:332-351 | a farmer owning nothing gets all-zero statistics; active schemes and active crops never exceed the farmer's applications and crops; active schemes is zero exactly when none of the farmer's applications is pending or approved, active crops zero exactly when none of the farmer's crops is of the current year |
| Store.SumBenefits | server/db.ts:346-348 | a missing benefit counts as zero: with none recorded the sum is zero, and with no negative benefit it is not negative |
| Store.CreateLandAddsArea | server/db.ts:194-203 | adding a land adds its area to its owner's total land area and leaves every other statistic unchanged |
| Store.CreateApplicationCountsActive | server/db.ts:263-272 | adding a pending or approved application raises the farmer's active-scheme count by one |
| Store.CreateApplicationStats | server/db.ts:332-351 | a new application adds one active scheme to its owner exactly when pending or approved, and its benefit (zero when missing) to its owner's total exactly when completed; land area, crops and every other farmer's figures are unchanged |
| Store.CreateCropStats | server/db.ts:332-351 | a new crop adds one active crop to its owner exactly when it is of the current year; every other figure of every farmer is unchanged |
| Scorer.Admits | server/storage.ts:245-248 | a missing or falsy list admits every value; a list admits exactly the values equal to one of its items, so a missing farmer value passes only a missing list; a truthy non-list admits nothing |
| Scorer.CropMatches | server/storage.ts:250-257 | a missing list matches; a list matches exactly when one of its crops equals one of the farmer's crop names ignoring case; a farmer without crops matches only a missing list |
| Scorer.LandMatches | server/storage.ts:259-265 | no bounds match any area; an area below the minimum or above the maximum fails |
| Scorer.AgeCounted | server/storage.ts:267-268 | the age criterion counts exactly for a present non-zero age |
| Scorer.AgeMatches | server/storage.ts:267-274 | bounds that are missing or 0 match any age; an age below a non-zero minimum or above a non-zero maximum fails |
| Scorer.Evaluate | server/storage.ts:240-284 | the age criterion is present exactly when the age is counted; a scheme that restricts nothing scores full marks; a farmer without a state, category or crops passes that criterion only when the scheme does not restrict it |
| Scorer.Total | server/storage.ts:245-284 | four criteria are counted, five when the farmer's age is set |
| Scorer.Score | server/storage.ts:244-284 | the score never exceeds the total; it is full exactly when every counted criterion matches and zero exactly when none does |
| Scorer.RoundPercent | server/storage.ts:286 | `Math.round(score / total * 100)` as the integer nearest to the exact ratio, halves rounding up |
| Scorer.RoundPercentExact | server/storage.ts:286 | for four or five criteria the percentage is exact: a multiple of 25 or of 20 and at most 100 |
| Scorer.MatchPercentage | server/storage.ts:240-286 | at most 100; a multiple of 20 with age counted and of 25 without; at least 50 exactly when half the criteria match; 100 exactly when all match |
| Scorer.ListCriteria | server/storage.ts:246-257 | a missing list admits everyone; an empty list or a non-list value admits no one |
| Scorer.CropMatchIgnoresCase | server/storage.ts:253-257 | lower-casing the scheme's target crops or the farmer's crop names does not change the crop match |
| Scorer.StateMatchIsExact | server/storage.ts:246-247 | the state match is case-sensitive, and a farmer without a state fails a state list |
| Scorer.ThreeOfFourIs75 | server/storage.ts:270-286 | without an age, three of four criteria give 75 |
| Scorer.FiveCriteriaScores | server/storage.ts:270-286 | with an age, three of five give 60 (recommended) and two of five give 40 (dropped) |
| Ranking.BookmarkedIds | server/storage.ts:236 | a scheme id is in the set exactly when some bookmark names it |
| Ranking.StatusMapIsLast | server/storage.ts:237 | a scheme has a status exactly when an application names it, and the status is that of the last such application |
| Ranking.Annotate | server/storage.ts:288-293 | the annotated scheme is the scheme itself, bookmarked exactly when a bookmark names it, with the status of the last application for it or none |
| Ranking.Candidates | server/storage.ts:240-298 | every candidate is an active catalogue scheme scoring at least 50 with its annotation; every such scheme is a candidate |
| Ranking.Recommend | server/storage.ts:225-300 | no profile gives nothing; otherwise exactly the active schemes scoring at least 50, sorted by percentage descending, a permutation of the candidates that keeps equal percentages in catalogue order |
| Ranking.SortedCandidates | server/storage.ts:296-299 | sorting the candidates keeps membership and both inclusion directions and yields descending percentages |
| Ranking.RecommendFor | server/storage.ts:225-300 | an unknown farmer gets nothing; every recommendation is a stored active scheme scoring at least 50, best first, annotated with the farmer's bookmarks and newest-first applications; every stored active scheme scoring at least 50 for the farmer's profile is recommended |
| Ranking.StatusIsOldestApplication | server/storage.ts:302-320 | applications come newest first, so the status shown is that of the oldest application for the scheme |
| Routes.VoiceCommand | server/routes.ts:441-480 | the reply navigates exactly when it carries a path, otherwise it is help; a weather word always wins; the intent is unknown exactly when no rule's word occurs |
| Routes.FirstRule | server/routes.ts:448-480 | the reply of the first rule whose word occurs, or nothing exactly when no word occurs |
| Routes.VoiceCommandRoute | server/routes.ts:430-480 | a user without a farmer profile gets not-found; otherwise the reply is the voice router's answer to the command |
| Routes.VoiceCommandIsFirstRule | server/routes.ts:441-480 | the router equals first-match over the rule table on the lower-cased command, else the unknown reply |
| Routes.RuleGroups | server/routes.ts:448-480 | no rule matches exactly when none of the six word groups occurs |
| Routes.WeatherIsTriedFirst | server/routes.ts:448-458 | a command naming both weather and schemes goes to the weather page |
| Routes.UnknownCommand | server/routes.ts:477-480 | a command with no keyword gets the unknown help reply |
| Routes.Register | server/routes.ts:38-66 | a taken username is refused with the store unchanged; otherwise a user and an empty unverified English farmer profile for it are stored and nothing else changes |
| Routes.RegisterTwice | server/routes.ts:41-45 | registering the same username again is refused and leaves the store as the first registration left it |
| Routes.MergeAi | server/routes.ts:211-214 | each recommendation keeps its place and gets the first AI insight for its scheme, or none exactly when no insight names it |
| Routes.MergeWithoutAi | server/routes.ts:211-214 | with no AI insights every recommendation is returned unchanged |
| Routes.ProfileIncomplete | server/routes.ts:194 | a missing or empty district or state, or an empty name, makes the profile incomplete; a complete profile has all three |
| Routes.CreateProfile | server/routes.ts:89-98 | only the farmers table changes; the stored farmer is the posted data bound to the caller's user, with the new id and timestamps, appended when the id is fresh |
| Routes.RegisteredProfileIsHidden | client/src/pages/register.tsx:80-92 | after registration and the page's profile POST, the user's profile lookup still returns the blank farmer registration created, not the posted one |
| Routes.RegisteredProfileIncomplete | server/routes.ts:49-56 | the farmer that registration creates has an incomplete profile |
| Routes.Newest | server/routes.ts:194-197 | as many active stored schemes as exist up to three, newest first, drawn from the active schemes without repeats; no active scheme left out is newer than any chosen one |
| Routes.NewestAreActive | server/storage.ts:189-204 | any ordering of the active schemes holds only active stored schemes |
| Routes.RecommendedRoute | server/routes.ts:186-222 | no farmer gives not-found; an incomplete profile gets the three newest active schemes (up to three, newest first, none left out newer than one chosen); otherwise the recommendations for the farmer merged with the AI ranking, or with an empty ranking when no AI answer comes |
| Routes.SubmitApplication | server/routes.ts:255-277 | no farmer leaves the store unchanged; otherwise the submitted data is stored with the farmer's id, the new id and the submission time, and exactly one "Application Submitted" success notification is appended |
| Routes.SubmitAddsOneNotification | server/routes.ts:267-275 | submitting extends the farmer's notifications by exactly the new one |
| Routes.DeleteBookmarkRoute | server/routes.ts:317-329 | no farmer gives not-found; otherwise every bookmark the farmer holds for the scheme is removed, every other pair's bookmarks are kept, the store is the one-statement delete of all the pair's rows, and the reply is "removed" either way |
| Assistant.FallbackFor | server/services/openrouter.ts:81-167 | the first keyword group found in the last message decides: location or address gives the Pune location; else schemes or generate the sample schemes; else recommendations or eligibility the sample recommendation; else translate the message echoed as a translation; help exactly when none occurs |
| Assistant.FallbackReadsLastOnly | server/services/openrouter.ts:81-86 | earlier messages never change the fallback, and no messages give the help answer |
| Assistant.MakeRequest | server/services/openrouter.ts:45-79 | the remote content is used exactly when a key is set and the request is answered; a missing key or a failure gives the fallback |
| Assistant.GeneratePromptNamesSchemes | server/services/openrouter.ts:220-248 | the generation prompt mentions schemes, so the offline answer is never the help text |
| Assistant.AnalyzePromptNamesSchemes | server/services/openrouter.ts:276-294 | the eligibility prompt mentions schemes |
| Assistant.TranslatePromptNamesTranslate | server/services/openrouter.ts:320-331 | the translation prompt mentions translation |
| Assistant.FallbackSchemes | server/services/openrouter.ts:406-477 | three active schemes with fresh ids |
| Assistant.Activate | server/services/openrouter.ts:255-261 | one active scheme per listed name, in order, with the i-th fresh id and both timestamps now |
| Assistant.SchemesFromPayload | server/services/openrouter.ts:254-265 | a scheme-list answer yields one active scheme per name with fresh ids; any other answer yields the three fallback schemes |
| Assistant.GenerateSchemes | server/services/openrouter.ts:211-266 | every generated scheme is active; without a key or on a failed request the result is the offline generation; a parsed scheme list is activated, and any other answer gives the fallback schemes |
| Assistant.FallbackGeneration | server/services/openrouter.ts:211-266 | offline, the prompt's words decide: the two sample scheme names, or the three built-in schemes when the prompt names a location |
| Assistant.GenerateWithoutKey | server/services/openrouter.ts:45-49 | without a key the network is never consulted and two or three schemes come back |
| Assistant.RandomRecommendations | server/services/openrouter.ts:300-308 | one recommendation per scheme, in order, each scoring between 60 and 99 |
| Assistant.AnalyzeSchemeEligibility | server/services/openrouter.ts:268-310 | no key or a failed request gives an empty list; a parsed list is returned as it is, a parsed answer without a list gives an empty list, and an unparsable answer gives random scores of 60 to 99 for every scheme |
| Assistant.TranslateContent | server/services/openrouter.ts:312-344 | a parsed answer is returned; an unparsable one returns the text untranslated with source "unknown"; offline gives the fallback answer to the prompt, which is a translation exactly when the prompt asks for no location, schemes or recommendations |
| Assistant.LanguageName | server/services/openrouter.ts:385-400 | each known code gives its language name and any other code gives English |
| Weather.Round | server/services/weather.ts:67 | the integer nearest to the value, halves rounding up |
| Weather.RoundMonotone | server/services/weather.ts:67 | rounding never reverses an order |
| Weather.MockWeather | server/services/weather.ts:82-123 | the location is "district, state", the state, or "Location not set"; placeholder readings exactly when both are set, zeros otherwise; three forecast days from tomorrow; no alerts |
| Weather.DatePartIsPrefix | server/services/weather.ts:132 | the date part of a timestamp is its longest prefix without a space |
| Weather.SeenDatesInFirstSeenOrder | server/services/weather.ts:129-150 | the days come out in order of their first reading, each once |
| Weather.CollectIsGrouping | server/services/weather.ts:129-148 | the grouping has one entry per distinct date, holding exactly that date's readings in order |
| Weather.MaxOf | server/services/weather.ts:152 | the largest temperature of a day, which is one of its readings |
| Weather.MinOf | server/services/weather.ts:153 | the smallest temperature of a day, which is one of its readings |
| Weather.Summarize | server/services/weather.ts:150-156 | a day summary keeps its date and its low never exceeds its high |
| Weather.ProcessForecast | server/services/weather.ts:125-157 | no data gives no days; otherwise the first five dates in first-seen order, each with rounded max/min temperature, the first reading's condition and the rounded rain sum |
| Weather.Alerts | server/services/weather.ts:159-196 | at most three alerts in check order: heat above 40°, humidity above 80%, wind above 10 m/s; only heat is high severity; each starts now and lasts its own hours |
| Weather.FarmingAdvice | server/services/weather.ts:198-214 | rain first, then heat above 35°, cold below 15°, humidity above 70%, otherwise the generic advice — one and only one applies |
| Weather.HeatAlertGetsHeatAdvice | server/services/weather.ts:163-206 | a heat alert without rain always comes with the heat advice |
| Weather.PlaceholderMatchesRules | server/services/weather.ts:91-123 | the mock readings are consistent with the live rules: no alert fires and the mock advice is what the rules give |
| Weather.CurrentWeather | server/services/weather.ts:37-80 | no key or a failed request gives the mock data; otherwise the live readings rounded, the described condition, the processed forecast, the alerts and the advice |
| Weather.LiveLocationWithoutDistrict | server/services/weather.ts:66 | a live reading prints a missing district as "null" where the mock falls back to the state |
| Translations.Entry | client/src/lib/translations.ts:450-452 | a language's text for a key is used exactly when the language and key exist and the text is non-empty |
| Translations.GetTranslation | client/src/lib/translations.ts:449-458 | the requested language's text, else the English text, else the key |
| Translations.T | client/src/lib/translations.ts:460-462 | the short form is the same lookup |
| Translations.TranslationSource | client/src/lib/translations.ts:449-458 | the result always comes from the requested language, English or the key, and is empty only for an empty key |
| Translations.FallsBackToEnglish | client/src/lib/translations.ts:455-457 | a missing language or key gives the English lookup |
| Translations.DefaultIsEnglish | client/src/lib/translations.ts:449 | leaving the language out means English |
| Translations.MissingKeyIsShownAsKey | client/src/lib/translations.ts:457 | a key English lacks shows as itself |
| Translations.SampleLookups | client/src/lib/translations.ts:449-462 | Hindi text, English fallback for Tamil, English fallback for an empty Hindi entry, and the key for an unknown key |
| SchemesPage.FilteredSchemes | client/src/pages/schemes.tsx:110-119 | no data gives nothing; an empty query keeps all; otherwise exactly the schemes whose name or description contains the query ignoring case, in order |
| SchemesPage.SearchIgnoresCase | client/src/pages/schemes.tsx:114-116 | lower-casing the query does not change the result |
| SchemesPage.FindScheme | client/src/pages/schemes.tsx:124 | finds a listed scheme with that id exactly when one exists |
| SchemesPage.BookmarkedSchemes | client/src/pages/schemes.tsx:123-125 | one scheme per bookmark whose scheme is listed, in bookmark order, each with the bookmarked id |
| SchemesPage.AppliedSchemes | client/src/pages/schemes.tsx:128-132 | one entry per application, its scheme with the application's status and id |
| SchemesPage.IsSchemeBookmarked | client/src/pages/schemes.tsx:172-174 | true exactly when a bookmark names the scheme |
| SchemesPage.IsSchemeApplied | client/src/pages/schemes.tsx:176-178 | true exactly when an application names the scheme |
| SchemesPage.HandleBookmark | client/src/pages/schemes.tsx:134-139 | a bookmarked scheme is removed through its DELETE path and any other is added |
| SchemesPage.ToggleFollowsBookmarks | client/src/pages/schemes.tsx:134-139 | the toggle removes exactly when the farmer already has a bookmark for the scheme |
| SchemesPage.ApplicationUrlAsWritten | client/src/pages/schemes.tsx:167-169 | as written, the result is the scheme's own process text whenever the name is mapped or the text mentions http |
| SchemesPage.ApplicationUrl | client/src/pages/schemes.tsx:157-170 | a mapped name gives its official URL; otherwise a process text mentioning http; a result always contains "http" |
| SchemesPage.MappedUrlIsNeverReturned | client/src/pages/schemes.tsx:160-169 | for PM-KISAN the code as written returns the process text, never the mapped URL |
| SchemesPage.UnmappedSchemesAgree | client/src/pages/schemes.tsx:167-169 | for unmapped names both readings agree |
| SchemesPage.HandleApply | client/src/pages/schemes.tsx:141-155 | an application is always submitted as pending; a tab opens exactly when there is a URL |
| SchemeCard.StatusConfig | client/src/components/scheme-card.tsx:31-39 | a badge exists exactly for the four statuses |
| SchemeCard.StatusBadge | client/src/components/scheme-card.tsx:28-48 | a badge is shown exactly for an applied scheme with one of the four statuses; it is green exactly for approved or completed |
| SchemeCard.MatchPercentageColor | client/src/components/scheme-card.tsx:50-55 | the four colour bands cut at 90, 75 and 60 |
| SchemeCard.MatchColorMonotone | client/src/components/scheme-card.tsx:50-55 | a higher percentage never gets a worse colour |
| SchemeCard.RecommendedBands | client/src/components/scheme-card.tsx:50-55 | percentages the scorer produces fall into each band |
| SchemeCard.FormatDeadline | client/src/components/scheme-card.tsx:69-81 | no deadline is ongoing; past is expired; 0 is today; 1 tomorrow; 2 to 7 a day count; later the locale date |
| SchemeCard.IsExpiringSoon | client/src/components/scheme-card.tsx:83-90 | flagged exactly for 1 to 7 days left |
| SchemeCard.ExpiringSoonText | client/src/components/scheme-card.tsx:69-90 | a flagged card reads "Tomorrow" or a count of 2 to 7 days |
| SchemeCard.DueTodayIsNotExpiringSoon | client/src/components/scheme-card.tsx:77-89 | a deadline due today reads "Today" but is not flagged |
| SchemeCard.ApplyLabel | client/src/components/scheme-card.tsx:170-174 | "Apply Now" before applying, "Completed" for a completed application, "Applied" otherwise |
| SchemeCard.CompletedBadgeAndLabel | client/src/components/scheme-card.tsx:35-174 | a completed application shows a green "Completed" badge and label |
| SchemeCard.Eligibility | client/src/components/scheme-card.tsx:209-229 | hidden exactly for a missing value; a list shows its first three entries and a count of the rest past three; any other value points to the details |
| SchemeCard.EligibilityAccountsForAll | client/src/components/scheme-card.tsx:215-229 | shown and hidden counts add up to the list length |
| Market.CategoryOf | client/src/pages/market.tsx:115-121 | "Other Crops" exactly when no keyword occurs in the lower-cased name; any other category is the first keyword that occurs |
| Market.EarlierKeywordWins | client/src/pages/market.tsx:115-121 | a name with both wheat and rice is grouped as rice |
| Market.CaseIsIgnored | client/src/pages/market.tsx:115-121 | an upper-case name is matched |
| Market.UnmatchedNameIsOtherCrop | client/src/pages/market.tsx:121 | a name without keywords goes to "Other Crops" |
| Market.GroupedPrices | client/src/pages/market.tsx:114-128 | no data gives no groups; a group exists exactly for a category with prices, and holds exactly those prices in order |
| Market.GroupIsMembers | client/src/pages/market.tsx:114-128 | the reduce builds, for every category, exactly its members in input order |
| Market.ExactlyOneGroup | client/src/pages/market.tsx:114-128 | every price appears in its own category's group and in no other |
| Market.GroupKeepsOrder | client/src/pages/market.tsx:126 | each group is a subsequence of the prices |
| Market.GroupSizesSum | client/src/pages/market.tsx:114-128 | the group sizes add up to the number of prices |
| Market.TrendIconOf | client/src/pages/market.tsx:36-42 | up and down get their arrows and colours; anything else is neutral |
| Market.TrendColor | client/src/pages/market.tsx:44-50 | green for up, red for down, grey otherwise |
| Market.TrendBadgeVariant | client/src/pages/market.tsx:52-58 | default for up, destructive for down, secondary otherwise |
| Market.UnknownTrendIsNeutral | client/src/pages/market.tsx:36-58 | an unknown trend is styled as stable |
| Market.TrendsAreDistinguished | client/src/pages/market.tsx:36-58 | up, down and stable differ in icon, colour and badge |
| Forms.AadharRuleAsWritten | client/src/pages/register.tsx:29 | as written, an absent number passes and a present one must be twelve digits |
| Forms.BlankAadharIsRejected | client/src/pages/register.tsx:63 | both forms start the number as "", which the rule as written rejects |
| Forms.AadharRule | client/src/pages/register.tsx:29 | an absent or blank number passes, any other must be twelve digits |
| Forms.AadharRulesAgreeOnEnteredNumbers | client/src/pages/profile.tsx:44 | the two rules differ only on the blank field |
| Forms.PersonalDefaults | client/src/pages/profile.tsx:108-126 | the profile form starts at age 25, male, general, in the current language |
| Forms.PersonalError | client/src/pages/profile.tsx:37-53 | name needs two characters, age 18 to 100, mobile ten digits, pincode six digits; optional fields never fail |
| Forms.PersonalAccepted | client/src/pages/profile.tsx:37-53 | the form has no error exactly when every field rule holds |
| Forms.PersonalFailing | client/src/pages/profile.tsx:37-53 | a form breaking a rule has a field that shows an error |
| Forms.RegisterDefaults | client/src/pages/register.tsx:53-70 | the register form starts with empty credentials, age 25, male, general, in the current language |
| Forms.Farmer | client/src/pages/register.tsx:23-34 | the farmer part of the register form is the profile form without bank fields |
| Forms.Mismatch | client/src/pages/register.tsx:36-39 | the password check runs only when the enums parsed, and fails exactly for different passwords |
| Forms.RegisterError | client/src/pages/register.tsx:18-39 | username three characters, password six, confirmation six and equal, plus the profile rules; a mismatch shows on the confirmation field |
| Forms.RegisterAccepted | client/src/pages/register.tsx:18-39 | the form has no error exactly when every field rule holds and the passwords agree |
| Forms.RegisterFailing | client/src/pages/register.tsx:18-39 | a form breaking a rule has a field that shows an error |
| Forms.MismatchIsRejected | client/src/pages/register.tsx:36-39 | different passwords always leave an error |
| Forms.MismatchIsShownOnConfirmation | client/src/pages/register.tsx:36-39 | a long-enough confirmation that differs shows the mismatch message |
| Forms.ParsedLanguage | client/src/pages/register.tsx:35 | a missing language becomes English |
| Forms.NextStep | client/src/pages/register.tsx:127-140 | step two is reached exactly when all three credentials are non-empty and the passwords agree; otherwise the step stays |
| Forms.PreviousStep | client/src/pages/register.tsx:142-144 | going back always lands on step one |
| Forms.NextStepSkipsLengths | client/src/pages/register.tsx:127-140 | the step check ignores the length rules: a two-letter username and one-letter password move on |
| Forms.ValidFormPassesStepOne | client/src/pages/register.tsx:127-140 | a form with no errors always reaches step two |
| Forms.BackThenForward | client/src/pages/register.tsx:127-144 | going back and forward again depends only on the credentials |
| Forms.OnSubmit | client/src/pages/register.tsx:80-125 | the account is always requested; the profile only after a successful registration, with the form's fields; then dashboard and success, or profile page and failure |
| Forms.ProfileOnlyAfterRegistration | client/src/pages/register.tsx:89-121 | a failed registration has the same effects whatever happens next, and sends no profile |
| Forms.LandError | client/src/pages/profile.tsx:55-61 | area must be at least 0.1 acre; survey number never fails |
| Forms.LandAccepted | client/src/pages/profile.tsx:55-61 | a land form is accepted exactly for a large-enough area and listed land, ownership and soil types |
| Forms.CropError | client/src/pages/profile.tsx:63-71 | year must lie between 2020 and next year; season must be listed; optional fields never fail |
| Forms.CropAccepted | client/src/pages/profile.tsx:63-71 | a crop form is accepted exactly for name, season, area and year all valid |
| Forms.CurrentYearIsAccepted | client/src/pages/profile.tsx:139-147 | the default current year passes the year rule |
| Forms.LivestockError | client/src/pages/profile.tsx:73-77 | count must be at least one and the animal type listed |
| Forms.LivestockAccepted | client/src/pages/profile.tsx:73-77 | a livestock form is accepted exactly for a listed type and a count of at least one |

## Left out

- Text.ToLower folds ASCII letters only; JavaScript's `toLowerCase` also folds non-ASCII letters. The Devanagari and Telugu voice keywords have no case, so they are unaffected.
- Numbers are exact reals and unbounded integers, not IEEE doubles. `Math.round` of a score ratio is computed exactly; the float error stays below one half.
- Keys such as `__proto__` or `constructor` behave specially on JavaScript objects. The model treats every key as ordinary.
- Forms.MinLength: the length is counted in Unicode scalar values (`|s|` of a `seq<char>`), but zod's `.min(n)` (client/src/pages/register.tsx:19-33) and `.toString().length` (register.tsx:132) count UTF-16 code units, so a character outside the Basic Multilingual Plane, such as an emoji, counts 1 here and 2 in the page.
- `getLocationFromAddress` and `processVoiceCommand` in the OpenRouter service are not modelled. No route or page in the core calls them.
- The system-prompt text sent to the model is not modelled. Only the user prompts' keywords matter to the offline fallback.
- Assistant.GenerateSchemes and Assistant.FallbackSchemes: a generated scheme keeps only id, name, active flag and timestamps. The benefit texts and criteria of the built-in schemes are omitted.
- The JSON parsing of remote answers is a parameter (`Parse`). The model does not parse text.
- zod parsing of request bodies in the routes is not modelled. The routes take already-validated values, and the 400 reply for a malformed body is absent.
- Password hashing (bcrypt) and JWT issuing and checking are not modelled. The hash is a parameter and the user id comes from an authenticated token.
- Network calls (OpenRouter, OpenWeather) are parameters. A reply is either answered with content or failed.
- Time is a parameter: the clock, ISO date rendering, the "days left" computation and `getFullYear`. So are `generateId` and `Math.random`.
- `formatBenefitAmount`, `formatCurrency` and `formatPrice` are display formatting of floats with `toFixed` and `Intl`. They are not modelled.
- `getHistoricalWeather` only calls an external API; it is not modelled.
- The OpenWeather query string (coordinates or "district,state,India") is not modelled. Only whether the request succeeds matters.
- Store.EmptyDb stands for `clear()`. It is a constant without a contract.
- Market.GroupedPrices: the order of the groups' keys on screen is not modelled. The result is a map from category to prices.
- The React rendering, toasts' descriptions, `isSubmitting` flags and query-cache invalidation are not modelled.
- Forms.NextStep: `form.trigger`, which re-shows the credential errors when step one fails, is not modelled.
- Forms.PersonalError and Forms.RegisterError: number inputs are modelled as already-parsed reals. `NaN` from an empty number field is not modelled.
- Forms.PersonalError and Forms.RegisterError: the messages of enum failures and of the crop-year bounds are abbreviated to fixed texts.
- Forms.RegisterError and Forms.PersonalError use the corrected Aadhar rule (Forms.AadharRule), not the rule as written.
- SchemesPage.HandleApply uses the corrected SchemesPage.ApplicationUrl, not the rule as written.
- Store.PatchLaws: "a patch never changes the id" holds because the modelled patch has no `id` field. In the source, `updateFarmer` spreads the request body over the record (db.ts:184, storage.ts:126-133) and the profile route passes the raw body (routes.ts:121), so a body carrying `id` would overwrite it.
- Store.UpdateFarmer: the patch has no `id` field, so the updated farmer always keeps its id. Tables are keyed by the record's id, and an id-changing update is not modelled.
- `getApplicationsByFarmerId` in the database-backed storage inner-joins schemes and farmers, so an application whose scheme is missing is dropped. The model keeps every application of the farmer.
- The `state` and `crop` filters of `getSchemes` (storage.ts:192-197), used by the scheme list route, are not modelled. Routes.Newest calls it without filters.
- The model runs every route over one store with the in-memory database's semantics, except the three queries listed above where the database-backed storage differs.
- `updateLand`, `updateCrop`, `updateLivestock`, `updateScheme` and `updateApplication` in the database-backed storage are not modelled. The in-memory store has no such operations.

## Findings

| source | as written | input that shows it | evidently intended | confidence | as-written member | corrected member |
|---|---|---|---|---|---|---|
| client/src/pages/schemes.tsx:167-169 | `schemeUrls[name] \|\| process?.includes('http') ? process : null` parses as `(a \|\| b) ? process : null`, so the mapped URL is never returned | a scheme named "PM-KISAN Scheme" whose process text is "Apply at the CSC centre" opens that text as a URL | a mapped name opens its official URL, else a process text containing http, else nothing | not executed | SchemesPage.ApplicationUrlAsWritten, SchemesPage.MappedUrlIsNeverReturned | SchemesPage.ApplicationUrl |
| client/src/pages/register.tsx:29 | the Aadhar rule is an optional 12-digit regex, but both forms default the field to "" | submitting the register or profile form without an Aadhar number fails with "Aadhar number must be 12 digits" | leaving the optional field blank is accepted | not executed | Forms.AadharRuleAsWritten, Forms.BlankAadharIsRejected | Forms.AadharRule |

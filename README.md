# movie-swipe, modelled in Dafny

movie-swipe is a Next.js app for picking a film to watch tonight. The swipe
screen shows one popular movie at a time, drawn from the upstream movie
database through the app's own `/api/movies` route. The user drags the card:

- down: "already seen";
- up: a favourite;
- right: onto a "want to watch" pile;
- left: skip.

After twenty decisive swipes the pile goes to the choose screen. There a
roulette or a tap picks one film, which is saved to the shortlist as "watch
now" or "watch later". Everything the app remembers lives in the browser's
key/value storage:

- the shortlist;
- the ids already shown (the newest 100);
- the ids marked seen;
- the favourites;
- a log of the newest 1000 swipes.

The shortlist, favourites and history screens read these lists back.

This project models the core of the app as Dafny modules, one per part of the
program:

| module | file | what it models |
|---|---|---|
| `Common` | common.dfy | optional values, route responses, `Array.filter`, `[...new Set(xs)]`, `Math.floor(Math.random() * n)` |
| `Records` | records.dfy | the stored records and the rules that update each stored list; the storage itself as a class `LocalStore` |
| `Filters` | filters.dfy | the filter conditions, the list toggles, the mood presets and the filter dialog (`FilterEditor`) |
| `Query` | query.dfy | the query parameters built from the filters, with a reader that gets the filters back |
| `Gesture` | gesture.dfy | how a finished drag is read on the four-direction screen and on the older horizontal-only screen |
| `Catalog` | catalog.dfy | `fetchMovie`: the duplicate re-fetch, the one filter-free retry after "not found", the shown-ids ledger |
| `Swipe` | swipe.dfy | the two swipe screens as classes whose fields the pointer handlers update |
| `Selected` | selected.dfy | the shortlist screen (`SelectedView`) |
| `Choose` | choose.dfy | the choose screen (`ChooseView`) and its roulette |
| `Favorites` | favorites.dfy | the favourites screen and its "recommended" ranking |
| `Stats` | stats.dfy | the history screen's period filters and counts |
| `TimeRecommendation` | timerec.dfy | the suggestion by hour and weekday |
| `Routes` | routes.dfy | the random-movie route and the streaming-service route |

The model keeps the form of the code:

- State that the pages keep and update step by step is a Dafny `class`. Each
  method has a `modifies` frame and an `ensures` giving the new state in terms
  of specification functions.
- Rules that only compute a value are functions, with lemmas about them.
- The one loop with a counter, the choose screen's roulette, is a `while`
  loop with invariants.
- The effect that walks the shortlist to start provider lookups is a `while`
  loop as well.

### Inputs instead of the outside world

Whatever the program gets from the outside world is an input:

- replies of the network, passed as the list of replies in the order the
  requests are made;
- `Date.now()`, passed as `now`;
- draws of `Math.random()`, passed as reals in [0, 1);
- the hour and the weekday;
- the API key.

### Behaviour worth knowing

- **Vertical priority.** A drag reads as vertical only when its vertical
  offset is strictly larger than its horizontal one. A drag of 150 across
  and 140 down is a right swipe (`Gesture.DiagonalGoesHorizontal`).
- **Filter-free retry.** Any "not found" answer to a first attempt is
  retried once without filters, whether or not filters were set.
- **Prefetched movie.** Applying new filters keeps a movie that was already
  prefetched; it is still shown after the next swipe.

## Model

| member | source | states |
|---|---|---|
| `Common.Dedup` | movie-swipe/app/page.tsx:422 | each element once, the same elements as the input, a subsequence of it, ordered by each element's first occurrence, empty exactly when the input is |
| `Common.RandomIndex` | app/api/movies/route.ts:77 | `Math.floor(u * n)` for u in [0, 1) is a valid index below n |
| `Records.SaveSelected` | movie-swipe/app/page.tsx:288-310 | first write wins: an id already on the shortlist leaves it unchanged; otherwise the entry, not yet watched, goes to the front and the old list follows; ids stay unique |
| `Records.SaveSelectedIdempotent` | movie-swipe/app/page.tsx:303-306 | saving the same movie again, whatever disposition and time, changes nothing |
| `Records.AddToCandidate` | movie-swipe/app/page.tsx:339-351 | the pile gains the movie at the end unless its id is there already; ids stay unique |
| `Records.AddToFavorites` | movie-swipe/app/page.tsx:364-376 | the favourites gain the movie at the front unless its id is there already; ids stay unique |
| `Records.AddWatchedId` | movie-swipe/app/page.tsx:354-361 | the seen ids gain the id at the end unless it is there; membership is old ids plus the id; no duplicates are introduced |
| `Records.PushCapped` | movie-swipe/app/page.tsx:379-393 | push then drop the oldest beyond the cap: the new entry is last, the list stays within the cap, the rest is the old list minus at most its first entry |
| `Records.PushAllKeepsNewest` | movie-swipe/app/page.tsx:180-184 | after any number of pushes the ledger holds exactly the newest `cap` entries, oldest first |
| `Records.LocalStore.SaveSelectedMovie` | movie-swipe/app/page.tsx:288-310 | the stored shortlist becomes `SaveSelected` of the old one; nothing else is written |
| `Records.LocalStore.MarkAsWatched` | movie-swipe/app/page.tsx:354-361 | the stored seen ids become `AddWatchedId` of the old ones |
| `Records.LocalStore.AddFavorite` | movie-swipe/app/page.tsx:364-376 | the stored favourites become `AddToFavorites` of the old ones |
| `Records.LocalStore.SaveSwipeStat` | movie-swipe/app/page.tsx:379-393 | the swipe log gains one entry and stays within 1000 entries |
| `Records.LocalStore.RecordShown` | movie-swipe/app/page.tsx:180-184 | the shown-ids ledger gains the id and stays within 100 entries |
| `Records.LocalStore.HandOffCandidates` | movie-swipe/app/page.tsx:463 | the stored pile becomes the given list |
| `Records.LocalStore.ClearCandidates` | movie-swipe/app/choose/page.tsx:130 | the stored pile is removed |
| `Filters.ToggleFlipsMembership` | movie-swipe/app/components/FilterModal.tsx:105-109 | a toggle flips the membership of its id and of no other id |
| `Filters.ToggleKeepsNoDup` | movie-swipe/app/components/FilterModal.tsx:112-116 | toggling keeps a duplicate-free list duplicate-free |
| `Filters.ToggleTwiceWhenAbsent` | movie-swipe/app/components/FilterModal.tsx:105-109 | selecting an unselected id and deselecting it restores the list exactly |
| `Filters.ToggleTwiceWhenPresent` | movie-swipe/app/components/FilterModal.tsx:105-109 | deselecting a selected id and selecting it again restores the set and the multiset of ids, not the order |
| `Filters.FindGenre` | movie-swipe/app/components/FilterModal.tsx:131 | `find` by name: none exactly when no genre has the name, otherwise the id of the first genre with it |
| `Filters.PresetFilters` | movie-swipe/app/components/FilterModal.tsx:119-148 | "tired": 90 minutes plus comedy if listed; "bored": no constraint; "with friends": 120 minutes plus action then comedy, each if listed; years and services always cleared |
| `Filters.FilterEditor.constructor` | movie-swipe/app/components/FilterModal.tsx:40-60 | the dialog starts from the current filters with no genre list |
| `Filters.FilterEditor.GenresLoaded` | movie-swipe/app/components/FilterModal.tsx:74-77 | the loaded genre list replaces the empty one |
| `Filters.FilterEditor.Sync` | movie-swipe/app/components/FilterModal.tsx:94-100 | a change of the current filters resets all five edited fields to them |
| `Filters.FilterEditor.ToggleGenre` | movie-swipe/app/components/FilterModal.tsx:105-109 | the genre selection is toggled; the genre is selected afterwards exactly when it was not before |
| `Filters.FilterEditor.ToggleProvider` | movie-swipe/app/components/FilterModal.tsx:112-116 | the service selection is toggled; the service is selected afterwards exactly when it was not before |
| `Filters.FilterEditor.ApplyPreset` | movie-swipe/app/components/FilterModal.tsx:119-148 | the edited fields become `PresetFilters` of the preset and the loaded genres |
| `Filters.FilterEditor.Reset` | app/components/FilterModal.tsx:116-122 | every edited field is cleared |
| `Filters.FilterEditor.Apply` | app/components/FilterModal.tsx:125-134 | exactly the five edited fields are handed to the caller |
| `Query.NatToString` | movie-swipe/app/page.tsx:119 | a non-empty string of decimal digits |
| `Query.ParseIntToString` | movie-swipe/app/page.tsx:119 | `String(n)` read back as a decimal is n, negative numbers included |
| `Query.SplitJoinInts` | movie-swipe/app/page.tsx:116 | splitting a non-empty `join(",")` at the commas gives back the list |
| `Query.QueryParams` | movie-swipe/app/page.tsx:114-129 | every value sent is non-empty; no parameter is sent exactly when no list is set and no number is truthy |
| `Query.ParseQueryParams` | movie-swipe/app/page.tsx:114-129 | the parameters read back as the filters, except that a runtime or year of 0 is not sent and reads back as none |
| `Query.PrefetchExcludesSeen` | movie-swipe/app/page.tsx:402-425 | the prefetch request is the fetch request plus, when any id is seen or shown, one `without_ids` listing every such id once |
| `Gesture.Classify` | movie-swipe/app/page.tsx:448-594 | each of the five outcomes exactly when: vertical beats horizontal, at the threshold, with a movie (down or up); otherwise horizontal at the threshold (right with a movie, else skip); otherwise revert |
| `Gesture.DecisiveWithMovie` | movie-swipe/app/page.tsx:448-517 | with a movie, a drag is decisive exactly when either axis reaches 100 pixels |
| `Gesture.NoMovieOnlySkips` | movie-swipe/app/page.tsx:517-558 | without a movie only a horizontal skip or a revert can happen |
| `Gesture.DiagonalGoesHorizontal` | movie-swipe/app/page.tsx:448 | offsets 150 across and 140 vertically give a right swipe or a skip, not a vertical swipe |
| `Gesture.VerticalHasPriority` | movie-swipe/app/page.tsx:448 | a vertical offset larger than a horizontal one that is past the threshold wins |
| `Gesture.ClassifyHorizontal` | app/page.tsx:162-188 | right with a movie opens the dialog, any other decisive drag loads another movie, short drags spring back |
| `Gesture.HorizontalAgrees` | app/page.tsx:162-163 | without a vertical swipe both screens read the horizontal axis the same way |
| `Catalog.ErrorMessage` | movie-swipe/app/page.tsx:158 | the body's error, or the default message; never empty |
| `Catalog.FetchMovie` | movie-swipe/app/page.tsx:103-205 | no more requests than replies, and at least one when any reply comes; a relaxed call stays relaxed; a movie shown is pushed onto the capped ledger, and nothing else touches the ledger |
| `Catalog.FetchStep` | movie-swipe/app/page.tsx:133-177 | the first request carries the filters unless they were cleared; a reply that is an unrelaxed "not found", or a repeat with re-fetches left, hands over to the rest of the replies; any other reply ends the fetch with its movie or its error message |
| `Catalog.FetchRequestsBounded` | movie-swipe/app/page.tsx:142-177 | at most 11 requests after the filters are cleared and 22 before |
| `Catalog.FetchRequestParams` | movie-swipe/app/page.tsx:108-131 | with the filters cleared every request is unconstrained; while they are not cleared every request carries them |
| `Catalog.FetchEndsOnLastReply` | movie-swipe/app/page.tsx:138-195 | a movie shown is the movie of the last reply read; an error carries the message of that failing reply; a fetch still waiting has read every reply |
| `Catalog.FirstReplyDecides` | movie-swipe/app/page.tsx:138-186 | a first reply with a movie neither shown nor watched is shown after one request; a first failure other than an unrelaxed "not found" ends the fetch after one request |
| `Catalog.SkippedRepliesAreRepeats` | movie-swipe/app/page.tsx:142-177 | every reply before the last one read was a repeat or a "not found" that cleared the filters |
| `Catalog.FetchRetriesCount` | movie-swipe/app/page.tsx:173-177 | re-fetches never exceed ten, and while no "not found" intervenes they count the requests after the first |
| `Catalog.RepeatShownAfterFullRun` | movie-swipe/app/page.tsx:173-186 | a repeat is shown only when ten re-fetches are used up, and then the last replies read, one per re-fetch plus the first, are all repeats |
| `Catalog.NotFoundRelaxesOnce` | movie-swipe/app/page.tsx:142-158 | a first "not found" clears the filters for every later request, and a second one ends the fetch with an error after two requests |
| `Catalog.FetchIsBounded` | movie-swipe/app/page.tsx:174-177 | one `fetchMovie` makes at most 22 requests |
| `Catalog.RepeatsAcceptedAfterTenRetries` | movie-swipe/app/page.tsx:174-177 | a movie that keeps coming back is shown after the first request and ten re-fetches |
| `Catalog.FreshFetchRecordsShown` | movie-swipe/app/page.tsx:180-186 | on an empty ledger the first movie is shown and recorded after one request |
| `Swipe.DirectionOf` | movie-swipe/app/page.tsx:454-558 | down, up, right and left are logged for "seen", favourite, pile and skip respectively |
| `Swipe.HandOffAsWritten` | movie-swipe/app/page.tsx:535 | the pile handed over on a right twentieth swipe is the old pile with the movie appended |
| `Swipe.HandOffAsWrittenDuplicates` | movie-swipe/app/page.tsx:535 | when the movie is already on the pile, that list holds its id twice and is not the pile the session keeps |
| `Swipe.HandOffDuplicateExample` | movie-swipe/app/page.tsx:535 | a movie with id 7 already on the pile is handed over twice |
| `Swipe.SwipeSession.PointerDown` | movie-swipe/app/page.tsx:213-219 | a press starts a drag at the pointer, not yet moved |
| `Swipe.SwipeSession.PointerMove` | movie-swipe/app/page.tsx:222-233 | moves count only during a drag from a known start; the offset is relative to the start; more than 5 pixels makes the press a drag, and it stays one |
| `Swipe.SwipeSession.RecordSwipe` | movie-swipe/app/page.tsx:448-583 | down adds the id to the seen ids, up adds a favourite, right adds to the pile; each logs one statistic (a skip only with a movie); the stored lists stay capped and duplicate-free |
| `Swipe.SwipeSession.Advance` | movie-swipe/app/page.tsx:458-511 | the count grows by one; the twentieth swipe hands the pile over, otherwise the prefetched movie is shown or a fetch is asked for, and the card is reset |
| `Swipe.SwipeSession.Commit` | movie-swipe/app/page.tsx:448-583 | a decisive swipe records its effect and advances, and never opens the details |
| `Swipe.SwipeSession.FinishSwipe` | movie-swipe/app/page.tsx:443-595 | `SwipeFinished`: the new pile, log, seen ids, favourites, count and card are those of `Classify` applied to the drag; a revert changes only the drag state; the choose screen follows exactly at the twentieth decisive swipe, and the pile handed over is the session's deduplicated pile (the corrected hand-off, see Findings) |
| `Swipe.SwipeSession.MouseUp` | movie-swipe/app/page.tsx:236-245 | nothing without a drag; a press that never moved, on a movie, opens the details and changes nothing else (movie, prefetched movie, offsets, store); anything else finishes the swipe with every effect `SwipeFinished` states |
| `Swipe.SwipeSession.PointerEnd` | movie-swipe/app/page.tsx:248-251 | leaving the card or lifting a finger finishes a drag under way, with every effect `SwipeFinished` states, and does nothing otherwise |
| `Swipe.SwipeSession.Settle` | movie-swipe/app/page.tsx:186-204 | a shown movie replaces the card and clears the error; a failure keeps the card and shows its message; cleared filters stay cleared; once a reply arrived the drag state is reset |
| `Swipe.SwipeSession.Fetch` | movie-swipe/app/page.tsx:103-205 | the page ends in the state `FetchMovie` decides on the stored ledgers, the ledger is its new ledger, and a prefetch follows a shown movie when none is prefetched |
| `Swipe.SwipeSession.Prefetch` | movie-swipe/app/page.tsx:396-440 | nothing while a movie is prefetched or a fetch is under way; otherwise one request with `PrefetchParams`, whose movie, if any, becomes the next one |
| `Swipe.SwipeSession.ApplyFilters` | movie-swipe/app/page.tsx:660-669 | the new filters replace the old and a fetch follows |
| `Swipe.LegacySwipe.PointerDown` | app/page.tsx:86-90 | a press starts a drag at the pointer |
| `Swipe.LegacySwipe.PointerMove` | app/page.tsx:93-97 | moves count only during a drag from a known start |
| `Swipe.LegacySwipe.PointerEnd` | app/page.tsx:158-190 | a right swipe on a movie opens the dialog on it, any other decisive swipe loads another movie, a short one springs back; the movie shown is untouched |
| `Swipe.LegacySwipe.Fetch` | app/page.tsx:45-74 | a movie replaces the card and clears the error; a failure keeps the card and shows its message; the drag state is reset either way |
| `Swipe.LegacySwipe.CloseModal` | app/page.tsx:201-205 | the dialog closes, forgets its movie, and another movie is loaded |
| `Swipe.LegacySwipe.Choose` | app/page.tsx:208-221 | with a movie in the dialog it is saved by `SaveSelected`, the dialog closes and another movie is loaded; without one nothing happens |
| `Selected.FilteredMovies` | movie-swipe/app/selected/page.tsx:75-78 | "all" shows the whole list; a disposition shows exactly its entries, every copy, in list order |
| `Selected.DispositionsPartition` | movie-swipe/app/selected/page.tsx:75-78 | the two dispositions together show every entry exactly once |
| `Selected.RemoveMovie` | movie-swipe/app/selected/page.tsx:81-85 | exactly the entries with the id go; every other entry stays with its multiplicity and order |
| `Selected.RemoveAbsent` | movie-swipe/app/selected/page.tsx:81-85 | removing an id not on the list changes nothing |
| `Selected.RemoveUndoesSave` | movie-swipe/app/selected/page.tsx:81-85 | removing a movie undoes saving it |
| `Selected.MarkWatched` | movie-swipe/app/selected/page.tsx:88-94 | entries with the id become watched; every other field and entry is unchanged |
| `Selected.MarkWatchedIdempotent` | movie-swipe/app/selected/page.tsx:88-94 | marking twice is marking once |
| `Selected.FindSelected` | movie-swipe/app/selected/page.tsx:169 | `find` by id: none exactly when the id is absent, otherwise its first entry |
| `Selected.ProviderClick` | movie-swipe/app/selected/page.tsx:168-173 | opening the link of a listed, unwatched movie gives exactly `MarkWatched` of the list for that id; an absent or already watched movie leaves the list unchanged; nothing is unmarked |
| `Selected.ProviderClickIdempotent` | movie-swipe/app/selected/page.tsx:168-173 | a second click changes nothing |
| `Selected.ToggleSelection` | movie-swipe/app/selected/page.tsx:182-190 | the id leaves the set if it was in it and joins it otherwise; no other id changes |
| `Selected.ToggleSelectionTwice` | movie-swipe/app/selected/page.tsx:182-190 | toggling the same id twice restores the set |
| `Selected.SharedMovies` | movie-swipe/app/selected/page.tsx:196 | exactly the shown entries whose ids are selected, each with its multiplicity, in list order |
| `Selected.SelectedView.Remove` | movie-swipe/app/selected/page.tsx:81-85 | the screen's list and the stored list both become `RemoveMovie` of the old list |
| `Selected.SelectedView.MarkAsWatched` | movie-swipe/app/selected/page.tsx:88-94 | the screen's list and the stored list both become `MarkWatched` of the old list |
| `Selected.SelectedView.OpenProvider` | movie-swipe/app/selected/page.tsx:168-173 | the screen's list and the stored list both become `ProviderClick` of the old list |
| `Selected.SelectedView.BeginFetchProviders` | movie-swipe/app/selected/page.tsx:97-106 | a lookup starts exactly when the movie has no answer and none is loading, and then it is loading |
| `Selected.SelectedView.FinishFetchProviders` | movie-swipe/app/selected/page.tsx:107-125 | the answer, or none for a failure, is kept and the movie stops loading |
| `Selected.SelectedView.RequestVisibleProviders` | movie-swipe/app/selected/page.tsx:131-137 | a lookup starts for exactly the visible movies with neither an answer nor a lookup under way, each once |
| `Selected.SelectedView.ToggleSelectionMode` | movie-swipe/app/selected/page.tsx:176-179 | the mode flips and the selection is emptied |
| `Selected.SelectedView.ToggleMovieSelection` | movie-swipe/app/selected/page.tsx:182-190 | the selection becomes `ToggleSelection` of the old one |
| `Selected.SelectedView.ShareMultiple` | movie-swipe/app/selected/page.tsx:193-222 | nothing without a selection; otherwise the selected visible entries are shared and selection mode ends |
| `Choose.Roulette` | movie-swipe/app/choose/page.tsx:51-62 | ten ticks, each landing on `Math.floor(u * n)` of its draw, a position of the pile |
| `Choose.ChooseView.constructor` | movie-swipe/app/choose/page.tsx:36-42 | the pile is the stored one, or empty when none is stored |
| `Choose.ChooseView.RandomSelect` | movie-swipe/app/choose/page.tsx:45-63 | nothing on an empty pile; otherwise tick k lands on `Math.floor(rolls[k] * n)`, the pick is the pile entry of the last tick and the dialog opens |
| `Choose.ChooseView.ManualSelect` | movie-swipe/app/choose/page.tsx:66-69 | the tapped movie is picked and the dialog opens |
| `Choose.ChooseView.CloseModal` | movie-swipe/app/choose/page.tsx:137-140 | the dialog closes and forgets the pick |
| `Choose.ChooseView.WatchNow` | movie-swipe/app/choose/page.tsx:111-123 | with a pick, the lookup's answer is kept; when no subscription service streams the pick it is saved as "watch now", the stored pile is removed and the round ends, otherwise the dialog stays open |
| `Choose.WatchNowIgnoresLookup` | movie-swipe/app/choose/page.tsx:113-118 | as written, the first "watch now" leaves whatever the lookup answers, including an answer with a streaming service |
| `Choose.ChooseView.OpenStreamingLink` | movie-swipe/app/choose/page.tsx:298-311 | a click on a streaming link of the open dialog, shown only when a subscription service streams the pick, saves it as "watch now" and removes the stored pile; the screen stays |
| `Choose.ChooseView.WatchLater` | movie-swipe/app/choose/page.tsx:126-134 | with a pick, it is saved as "watch later", the stored pile is removed and the round ends; without one nothing happens |
| `Choose.ChooseView.Reset` | movie-swipe/app/choose/page.tsx:143-147 | the stored pile is removed and the round ends, nothing saved |
| `Favorites.LikeCount` | movie-swipe/app/favorites/page.tsx:62-67 | the number of right and up swipes on an id, positive exactly when there is one |
| `Favorites.LikedIds` | movie-swipe/app/favorites/page.tsx:62-67 | each liked id once, and only liked ids |
| `Favorites.CountMapCounts` | movie-swipe/app/favorites/page.tsx:62-67 | the dictionary holds exactly the liked ids, each with its like count |
| `Favorites.CountLikes` | movie-swipe/app/favorites/page.tsx:62-67 | the counting loop's dictionary and key order are those of the statistics |
| `Favorites.InsertDescSorted` | movie-swipe/app/favorites/page.tsx:72 | inserting into a list sorted highest first keeps it sorted |
| `Favorites.SortDesc` | movie-swipe/app/favorites/page.tsx:72 | the sort is a permutation, sorted highest count first |
| `Favorites.EntryOrder` | movie-swipe/app/favorites/page.tsx:70 | `Object.entries` lists the same keys, still each once |
| `Favorites.TakeSorted` | movie-swipe/app/favorites/page.tsx:73 | the first n of a sorted list are the top n |
| `Favorites.Ranked` | movie-swipe/app/favorites/page.tsx:70-74 | at most five keys that are not favourites, each once, highest count first; a key left out counts no more than any key kept, and only when five are kept |
| `Favorites.Recommend` | movie-swipe/app/favorites/page.tsx:50-78 | at most five liked non-favourite ids, most liked first, and no liked non-favourite left out is liked more than one kept |
| `Favorites.FavoriteIds` | movie-swipe/app/favorites/page.tsx:52 | one id per favourite, exactly the favourites' ids |
| `Favorites.RemoveFavorite` | movie-swipe/app/favorites/page.tsx:84-88 | exactly the favourites with the id go; every other favourite stays with its multiplicity and order |
| `Favorites.RemoveUndoesAdd` | movie-swipe/app/favorites/page.tsx:84-88 | removing a favourite undoes the up swipe that added it |
| `Favorites.FavoritesView.GenerateRecommendations` | movie-swipe/app/favorites/page.tsx:50-78 | without favourites or stored statistics nothing changes; otherwise the recommendations are `Recommend` of the statistics |
| `Favorites.FavoritesView.Remove` | movie-swipe/app/favorites/page.tsx:84-88 | the screen's list and the stored list both become `RemoveFavorite` of the old list |
| `Stats.WindowDays` | app/stats/page.tsx:67-76 | today spans 1 day, a week 7 and a month 30 |
| `Stats.FilteredStats` | app/stats/page.tsx:63-83 | "all" keeps every statistic; a period keeps exactly those from its start on, each with its multiplicity, in order |
| `Stats.WindowsNest` | app/stats/page.tsx:63-83 | a longer period keeps every statistic a shorter one keeps |
| `Stats.FilteredSelected` | app/stats/page.tsx:86-96 | exactly the shortlist entries chosen from the period's start on (time 0 for "all"), each with its multiplicity, in order |
| `Stats.DirectionsPartition` | app/stats/page.tsx:99-102 | the four direction counts add up to the total |
| `Stats.ActionsPartition` | app/stats/page.tsx:104-105 | the two disposition counts add up to the shortlist's size |
| `Stats.DirectionCount` | app/stats/page.tsx:101-103 | the number of statistics with a direction: 0 exactly when none has it, the whole log exactly when all have it |
| `Stats.ActionCount` | app/stats/page.tsx:105-106 | the number of shortlist entries with a disposition: 0 exactly when none has it, the whole list exactly when all have it |
| `Stats.SwipeRatio` | app/stats/page.tsx:108 | a percentage between 0 and 100: right swipes times 100 over the total, 0 without swipes |
| `Stats.Summarize` | app/stats/page.tsx:99-108 | the figures of a period: the total and each of left, right and down is the count of its direction in the period's statistics; watch-now and watch-later are the counts of their disposition; the ratio is `SwipeRatio` of right over total; the shown directions plus up swipes make the total and the dispositions the shortlist size |
| `TimeRecommendation.GetTimeRecommendation` | movie-swipe/app/components/TimeRecommendationModal.tsx:11-74 | 90 minutes exactly from 22:00; no ceiling exactly on weekend days 10:00-17:59; 120 minutes otherwise; each of the four messages (bedtime, weekend, after work, default) exactly in its own window; only the runtime is set |
| `TimeRecommendation.RuntimeChoices` | movie-swipe/app/components/TimeRecommendationModal.tsx:11-74 | the suggested ceiling is 90, 120 or none |
| `Routes.FirstNonEmpty` | app/api/movies/route.ts:84 | `a \|\| b \|\| c \|\| fallback` on strings: the first non-empty one, else the fallback |
| `Routes.Normalize` | app/api/movies/route.ts:81-88 | id, poster and overview copied, rating from the vote average, title by the fallback chain, never empty |
| `Routes.GetRandomMovie` | app/api/movies/route.ts:26-99 | 500 without a key; a page of 1-10; 500 with the upstream status on an upstream error; 404 exactly on a page without movies; 500 on a failure; with a key, success exactly when the page is OK and has movies, and then the body is one movie of the page, normalised |
| `Routes.ProviderList` | movie-swipe/app/api/providers/route.ts:55-62 | the major services in upstream order, each with its multiplicity, when any is listed; all services otherwise |
| `Routes.ProviderListIdempotent` | movie-swipe/app/api/providers/route.ts:55-62 | filtering to the majors twice is filtering once |
| `Routes.GetProviders` | movie-swipe/app/api/providers/route.ts:20-72 | 500 without a key or on an upstream error (its status passed on) or failure; success exactly with a key and an upstream answer, whose body is `ProviderList` |

## Left out

- The network, the browser's storage as JSON text, `Math.random()`, `Date.now()`, the hour and weekday, `setTimeout` and `setInterval` are not modelled. Their results are inputs, and animation delays happen at once.
- Malformed stored JSON is not modelled, because stored lists are typed values here.
- Rendering, styles, card rotation and opacity, and the fly-out offsets during animations are presentation only.
- Pointer positions and drag offsets are integers here, whereas `clientX` and `clientY` are floating-point numbers, so a sub-pixel offset such as 99.5 is not represented. The thresholds of 100 and 5 pixels compare the same way on whole pixels.
- React's scheduling is not modelled: state updates, effects re-running, and stale closures other than the one under Findings.
- The second `fetchMovie` that the filters effect starts when a "not found" clears the filters (movie-swipe/app/page.tsx:667-669) is not modelled, because it is a React re-render effect. Only the explicit retry is.
- The two-second pause before the filter-free retry, and the notice shown during it, are not modelled.
- `handleCardClick`'s details request, the details dialog and `handleMouseDown`'s `preventDefault` are not modelled. Only the decision to open the details is.
- The selection dialog of movie-swipe/app/page.tsx is not modelled, and neither is its `handleWatchNow`, `handleWatchLater`, `handleModalClose` or provider lookup (606-657): nothing on that page ever sets its movie, so the dialog cannot open.
- `shareMovie` and the text of bulk sharing are not modelled, because `navigator.share` and the clipboard are foreign calls. Only which entries are shared is.
- The storage event listeners on the shortlist and favourites screens are not modelled, because they re-read storage written elsewhere.
- The vote pages, the genre list route, the movie details and providers routes by id, and the layout are not part of this model.
- The filter dialog's service list and loading flag are not modelled. Its genre list is.
- Selected.SelectedView.RequestVisibleProviders: starts lookups one after another with the guard up to date, whereas the effect's closure sees the state of one render, so an id listed twice could be looked up twice.
- Swipe.SwipeSession.Advance / Commit / FinishSwipe: on a twentieth swipe that goes right they hand over the session's pile with the movie added by `addToCandidate`'s id check, which is the corrected hand-off. The code at movie-swipe/app/page.tsx:535 appends the movie without that check, as `Swipe.HandOffAsWritten` models, so a repeated movie reaches the choose screen twice there.
- Swipe.SwipeSession.Fetch: the replies are a finite list, so a fetch whose replies run out ends as waiting with the next request out.
- Favorites.SortDesc: stability on ties is not proved. The ranking's output is proved sorted and a permutation, not tie order.
- Favorites.EntryOrder: models JavaScript's key order (array indices ascending, then insertion order), which only decides ties.
- Choose.ChooseView: the pick keeps its pile entry, and the `addedAt` field it carries into the shortlist entry is dropped, as `SelectedMovie` has no such field.
- Stats.FilteredSelected: for "all" an entry chosen before time 0 is left out, as in the code.
- Routes.GetRandomMovie: the JSON error bodies, `statusText` and the upstream body text are not modelled, because only statuses matter to callers.

## Findings

| source | as written | input that shows it | evidently intended | confidence | as-written member | corrected member |
|---|---|---|---|---|---|---|
| movie-swipe/app/page.tsx:535 | on the twentieth swipe, if it goes right, the pile stored for the choose screen is the old pile with the movie appended, without the id check `addToCandidate` makes | a movie (id 7) already on the pile comes back and the twentieth swipe goes right on it: the choose screen gets id 7 twice | hand over the pile with the movie added only when its id is absent | not executed; high | `Swipe.HandOffDuplicateExample` | `Swipe.SwipeSession.FinishSwipe` |
| movie-swipe/app/choose/page.tsx:111-123 | `handleWatchNow` awaits the provider lookup, then tests the `providers` value of the render that ran it, which is still `null` on the screen's first "watch now" | the pick is streamed by Netflix (the lookup's flat-rate list holds service 8): the page still saves it and returns to the swipe screen | decide on the lookup's answer, keeping the dialog open when a subscription service streams the pick | not executed; high | `Choose.WatchNowIgnoresLookup` | `Choose.ChooseView.WatchNow` |

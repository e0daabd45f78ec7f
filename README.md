# Startup Showcase screen state holders, in Dafny

This project models the screen state holders (view models) of the Startup
Showcase Android client. The client lists startup companies and plays short
promotional videos ("reels"). Each holder keeps a few observable fields. It
updates them on two kinds of input: the screen's intents (load, load more,
like, follow, filter, refresh), and the notifications a repository flow
delivers. A notification is a `Resource` envelope: `Loading`, `Success`
carrying nullable data, or `Error` carrying a message.

- `Resources` (resources.dfy): the envelope, and the Kotlin helpers the
  holders use: `find`, `getOrNull` and `?: emptyList()`. It also defines
  `LastSuccess` and `LastError`, which name the last success or error in a
  flow.
- `ReelsScreen` (reels.dfy): the reel feed. It covers the initial load, "load
  more" behind a reentrancy guard, the optimistic like toggle and view
  counting.
- `HomeScreen` (home.dfy): the featured strip and the main company list. It
  covers the category filter, refresh and follow.
- `MainScreen` (main_screen.dfy): the current user and a loading flag, fed by
  a subscription that starts when the holder is built.

Each holder is a class with the source's fields. Each intent and each
notification handler is a method. The method's postcondition ties the new
fields, and the calls it logged on its repository, to one `Step` of a pure
state machine applied to the old fields. A repository is a class with a ghost
log of the calls made on it. Notifications come back as arguments of the
handler methods. `Run` folds `Step` over any sequence of inputs. Because
inputs may interleave freely, lemmas about `Run` hold for every order in which
intents and notifications reach a holder.

The model follows the code, including where it does less than its names
suggest:
- A newer load does not supersede an older one still collecting. Every
  notification is applied as it arrives.
- "Load more" re-requests the first 20 reels, so a page can repeat.
  `LoadMoreRepeatsFirstPage` shows the duplicate ids this produces.
- `toggleFollow` always asks to follow, never to unfollow, although its
  comment says "toggle".
- The home screen's error is never cleared. A later success leaves the old
  message in place.

## Model

| member | source | states |
|---|---|---|
| `Resources.Find` | app/src/main/java/com/startupshowcase/app/presentation/reels/ReelsViewModel.kt:81 | `find` yields a value exactly when some element matches, and then it yields the first match |
| `Resources.LastSuccess` | app/src/main/java/com/startupshowcase/app/presentation/reels/ReelsViewModel.kt:37-38 | yields data exactly when the flow has a `Success`, and then the data of the last one |
| `Resources.LastError` | app/src/main/java/com/startupshowcase/app/presentation/reels/ReelsViewModel.kt:42-43 | yields a message exactly when the flow has an `Error`, and then the message of the last one |
| `ReelsScreen.OnLoadEvent` | app/src/main/java/com/startupshowcase/app/presentation/reels/ReelsViewModel.kt:36-49 | in the first-page collector, the feed is loading iff the event is `Loading`. A `Success` replaces the list (empty for null) and sets the page to 1. An `Error` stores its message and keeps the list and page. The guard is untouched |
| `ReelsScreen.OnLoadMoreEvent` | app/src/main/java/com/startupshowcase/app/presentation/reels/ReelsViewModel.kt:60-74 | in the next-page collector, a `Success` appends its reels (none for null) and adds 1 to the page. The guard stays set only on `Loading`. The loading flag and error are untouched |
| `ReelsScreen.StartLoadMore` | app/src/main/java/com/startupshowcase/app/presentation/reels/ReelsViewModel.kt:54-59 | no request is made exactly when a "load more" is pending. Otherwise it sets the guard and makes a single 20-reel first-page request |
| `ReelsScreen.ToggleLiked` | app/src/main/java/com/startupshowcase/app/presentation/reels/ReelsViewModel.kt:89-96 | the optimistic update keeps length and order and keeps every reel with another id. A reel with the id gets its liked flag negated, with likes -1 if it was liked and +1 if not |
| `ReelsScreen.LikeRequest` | app/src/main/java/com/startupshowcase/app/presentation/reels/ReelsViewModel.kt:81-86 | the call is an unlike exactly when the first reel with the id is liked. Otherwise it is a like, including when the id is absent |
| `ReelsScreen.ViewRequests` | app/src/main/java/com/startupshowcase/app/presentation/reels/ReelsViewModel.kt:100-106 | a view is counted for the reel at the position when 0 <= position < length, and nothing happens otherwise |
| `ReelsScreen.LoadEventsOutcome` | app/src/main/java/com/startupshowcase/app/presentation/reels/ReelsViewModel.kt:32-52 | after a first-page flow, the feed is loading iff the last event is `Loading`. The list and page come from the last `Success` (the list it carried, page 1) or are unchanged. The error comes from the last `Error` or is unchanged |
| `ReelsScreen.LoadMoreEventsAppend` | app/src/main/java/com/startupshowcase/app/presentation/reels/ReelsViewModel.kt:54-77 | after a next-page flow, the list is the old list plus every delivered page, so the old list is a prefix and the length grows by their total. The page grows by the number of successes. The guard stays set iff it was set and no terminal event came |
| `ReelsScreen.LoadMoreRepeatsFirstPage` | app/src/main/java/com/startupshowcase/app/presentation/reels/ReelsViewModel.kt:59-66 | when "load more" gets back the first page unchanged, the list is that page twice, so reel ids repeat |
| `ReelsScreen.ToggleLikedTwice` | app/src/main/java/com/startupshowcase/app/presentation/reels/ReelsViewModel.kt:89-96 | applying the optimistic update twice restores the list exactly |
| `ReelsScreen.ToggleFlipsRequest` | app/src/main/java/com/startupshowcase/app/presentation/reels/ReelsViewModel.kt:81-96 | for a listed reel, after the local update the next toggle makes the opposite call |
| `ReelsScreen.LikeThenUnlike` | app/src/main/java/com/startupshowcase/app/presentation/reels/ReelsViewModel.kt:79-97 | two toggles of a listed reel, the second made after the first's call has completed, leave the feed exactly as it was, and their calls are one like and one unlike |
| `ReelsScreen.GuardSerialisesLoadMore` | app/src/main/java/com/startupshowcase/app/presentation/reels/ReelsViewModel.kt:54-72 | in any run, the "load more" requests let through, plus the pending flag before the run, never exceed the terminal next-page events plus the pending flag after it |
| `ReelsScreen.ErrorIsNeverCleared` | app/src/main/java/com/startupshowcase/app/presentation/reels/ReelsViewModel.kt:26-27 | once the feed holds an error message, no run resets it to null |
| `ReelsScreen.RunRequests` | app/src/main/java/com/startupshowcase/app/presentation/reels/ReelsViewModel.kt:35 | every call of a run is one of three kinds: a first-page query for 20 reels, a like or unlike of an id the run asked to toggle, or a view count |
| `ReelsScreen.ReelRepository.Issue` | app/src/main/java/com/startupshowcase/app/domain/repository/ReelRepository.kt:10-29 | each call is appended to the repository's log |
| `ReelsScreen.ReelsViewModel.constructor` | app/src/main/java/com/startupshowcase/app/presentation/reels/ReelsViewModel.kt:20-30 | starts with an empty list, not loading, no error, page 0 and the guard clear |
| `ReelsScreen.ReelsViewModel.LoadReels` | app/src/main/java/com/startupshowcase/app/presentation/reels/ReelsViewModel.kt:32-35 | raises the loading flag and logs one 20-reel request |
| `ReelsScreen.ReelsViewModel.OnLoadReelsEvent` | app/src/main/java/com/startupshowcase/app/presentation/reels/ReelsViewModel.kt:36-49 | its fields become `OnLoadEvent` of the old fields |
| `ReelsScreen.ReelsViewModel.LoadMoreReels` | app/src/main/java/com/startupshowcase/app/presentation/reels/ReelsViewModel.kt:54-59 | its fields and log become `StartLoadMore` of the old fields. While the guard is set it changes nothing and logs nothing |
| `ReelsScreen.ReelsViewModel.OnLoadMoreReelsEvent` | app/src/main/java/com/startupshowcase/app/presentation/reels/ReelsViewModel.kt:60-74 | its fields become `OnLoadMoreEvent` of the old fields |
| `ReelsScreen.ReelsViewModel.ToggleLike` | app/src/main/java/com/startupshowcase/app/presentation/reels/ReelsViewModel.kt:79-97 | logs `LikeRequest` of the old list and replaces the list with `ToggleLiked` of it. No rollback happens |
| `ReelsScreen.ReelsViewModel.OnReelViewed` | app/src/main/java/com/startupshowcase/app/presentation/reels/ReelsViewModel.kt:100-106 | logs `ViewRequests` of the list and position and changes no field |
| `HomeScreen.OnFeaturedEvent` | app/src/main/java/com/startupshowcase/app/presentation/home/HomeViewModel.kt:38-48 | a `Success` replaces only the featured list (empty for null). An `Error` sets only the error. `Loading` changes nothing. The loading flag is never touched |
| `HomeScreen.OnCompaniesEvent` | app/src/main/java/com/startupshowcase/app/presentation/home/HomeViewModel.kt:57-69 | the screen is loading iff the event is `Loading`. A `Success` replaces the main list (empty for null). An `Error` stores its message and keeps the list. The featured list is untouched |
| `HomeScreen.StartCompaniesLoad` | app/src/main/java/com/startupshowcase/app/presentation/home/HomeViewModel.kt:53-56 | raises the loading flag and makes a single request for the current category, any featured flag and limit 20 |
| `HomeScreen.FilterCompanies` | app/src/main/java/com/startupshowcase/app/presentation/home/HomeViewModel.kt:74-77 | stores the category (null is all) and then requests the main list with that category. The lists and error are untouched |
| `HomeScreen.Refresh` | app/src/main/java/com/startupshowcase/app/presentation/home/HomeViewModel.kt:79-82 | makes exactly a featured request (limit 10) followed by a main-list request, and raises the loading flag |
| `HomeScreen.FollowRequests` | app/src/main/java/com/startupshowcase/app/presentation/home/HomeViewModel.kt:87-90 | makes a request exactly when some company of the main list has the id, and that request is a follow, never an unfollow |
| `HomeScreen.OnFollowEvent` | app/src/main/java/com/startupshowcase/app/presentation/home/HomeViewModel.kt:91-100 | a follow `Success` does a full refresh. An `Error` sets only the error and makes no call. `Loading` does nothing |
| `HomeScreen.CompaniesEventsOutcome` | app/src/main/java/com/startupshowcase/app/presentation/home/HomeViewModel.kt:53-72 | after a main-list flow, the screen is loading iff the last event is `Loading`. The list comes from the last `Success` or is unchanged, and the error from the last `Error` or is unchanged. The featured list is unchanged |
| `HomeScreen.FeaturedEventsOutcome` | app/src/main/java/com/startupshowcase/app/presentation/home/HomeViewModel.kt:35-51 | after a featured flow, the featured list comes from the last `Success` or is unchanged. The loading flag and main list are unchanged |
| `HomeScreen.ErrorIsOnlyOverwritten` | app/src/main/java/com/startupshowcase/app/presentation/home/HomeViewModel.kt:30 | no run resets the error to null. After any run it is the old error, or some message that a failed notification of the run carried |
| `HomeScreen.RunNeverUnfollows` | app/src/main/java/com/startupshowcase/app/presentation/home/HomeViewModel.kt:87-90 | every call of any run is one of three kinds: the featured query, a 20-company main-list query, or a follow of an id the run asked to toggle. None is an unfollow |
| `HomeScreen.CategoryStaysUntilFiltered` | app/src/main/java/com/startupshowcase/app/presentation/home/HomeViewModel.kt:33 | in a run without a filter intent, the category is unchanged and every main-list query carries it |
| `HomeScreen.CompanyRepository.Issue` | app/src/main/java/com/startupshowcase/app/domain/repository/CompanyRepository.kt:10-28 | each call is appended to the repository's log |
| `HomeScreen.HomeViewModel.constructor` | app/src/main/java/com/startupshowcase/app/presentation/home/HomeViewModel.kt:21-33 | starts with both lists empty, not loading, no error and no category |
| `HomeScreen.HomeViewModel.LoadFeaturedCompanies` | app/src/main/java/com/startupshowcase/app/presentation/home/HomeViewModel.kt:35-37 | logs the featured request and changes no field |
| `HomeScreen.HomeViewModel.OnFeaturedCompaniesEvent` | app/src/main/java/com/startupshowcase/app/presentation/home/HomeViewModel.kt:38-48 | its fields become `OnFeaturedEvent` of the old fields |
| `HomeScreen.HomeViewModel.LoadCompanies` | app/src/main/java/com/startupshowcase/app/presentation/home/HomeViewModel.kt:53-56 | its fields and log become `StartCompaniesLoad` of the old fields |
| `HomeScreen.HomeViewModel.OnCompaniesEvent` | app/src/main/java/com/startupshowcase/app/presentation/home/HomeViewModel.kt:57-69 | its fields become `OnCompaniesEvent` of the old fields |
| `HomeScreen.HomeViewModel.FilterByCategory` | app/src/main/java/com/startupshowcase/app/presentation/home/HomeViewModel.kt:74-77 | its fields and log become `FilterCompanies` of the old fields |
| `HomeScreen.HomeViewModel.RefreshData` | app/src/main/java/com/startupshowcase/app/presentation/home/HomeViewModel.kt:79-82 | its fields and log become `Refresh` of the old fields |
| `HomeScreen.HomeViewModel.ToggleFollow` | app/src/main/java/com/startupshowcase/app/presentation/home/HomeViewModel.kt:84-90 | logs `FollowRequests` of the main list and changes no field |
| `HomeScreen.HomeViewModel.OnFollowEvent` | app/src/main/java/com/startupshowcase/app/presentation/home/HomeViewModel.kt:91-100 | its fields and log become `OnFollowEvent` of the old fields |
| `MainScreen.OnUserEvent` | app/src/main/java/com/startupshowcase/app/presentation/MainViewModel.kt:33-42 | the holder is loading iff the event is `Loading`. A `Success` sets the user to the carried data, null included. `Loading` and `Error` keep the user |
| `MainScreen.CurrentUserEventsOutcome` | app/src/main/java/com/startupshowcase/app/presentation/MainViewModel.kt:30-45 | after any events, the holder is loading iff the last one is `Loading`. The user is the data of the last `Success`, or unchanged |
| `MainScreen.AuthRepository.Issue` | app/src/main/java/com/startupshowcase/app/domain/repository/AuthRepository.kt:17 | each call is appended to the repository's log |
| `MainScreen.AuthRepository.IsUserLoggedIn` | app/src/main/java/com/startupshowcase/app/domain/repository/AuthRepository.kt:23 | returns the provider's current answer |
| `MainScreen.MainViewModel.constructor` | app/src/main/java/com/startupshowcase/app/presentation/MainViewModel.kt:20-28 | starts with no user and not loading, and immediately logs one current-user request |
| `MainScreen.MainViewModel.OnCurrentUserEvent` | app/src/main/java/com/startupshowcase/app/presentation/MainViewModel.kt:33-42 | its fields become `OnUserEvent` of the old fields |
| `MainScreen.MainViewModel.IsUserLoggedIn` | app/src/main/java/com/startupshowcase/app/presentation/MainViewModel.kt:47-49 | returns the authentication repository's answer unchanged |

## Left out

- Coroutines and flows are not modelled. Every notification is one sequential
  step. `Run` allows any interleaving of steps, but steps are never
  concurrent, and a newer load never discards an older collector's results
  (the code does not either).
- `ReelsScreen.ReelsViewModel.LoadMoreReels`: the source sets the guard
  inside the launched coroutine, so two quick calls can both pass it. The
  model sets it in the same step as the check, so that race is not captured.
- `ReelsScreen.ReelsViewModel.ToggleLike`: the source applies the local
  update after the like or unlike flow completes, to the list as it is then.
  The model does both in one step, so nothing can change the list in between.
- `ReelsScreen.LikeThenUnlike`: holds only when the second toggle comes
  after the first toggle's call has completed. In the source the choice
  between like and unlike is made when the coroutine starts, and the local
  update waits for the backend write. A second tap before that reads the
  unchanged list and repeats the same call, so the backend count moves by
  two, while the two local updates still restore the list.
- `ReelsScreen.ToggleLiked`: does not model 32-bit wrap-around of `likes`,
  because counts are unbounded integers here.
- `ReelsScreen.OnLoadMoreEvent`: does not model 32-bit wrap-around of
  `currentPage`, for the same reason.
- The repository implementations over Firestore and Firebase Storage are not
  part of this model. Filtering, ordering, limits, prefix search, atomic
  counters and uploads belong to the backend. A repository is reduced to a
  log of calls, and its notifications are inputs.
- Notifications of the like, unlike and view-count calls are collected and
  ignored by the source, so the model does not represent them.
- `Resource.Error` is modelled with a non-null message. Every error the
  repositories build carries one. util/Resource is not part of this model,
  and its shape is inferred from use.
- Records keep only the fields the holders read or write: `Reel` keeps id,
  likes and the liked flag, `Company` its id, and `User` its id.
- UI files, adapters, `formatCount` (floating point), dependency wiring, the
  application class and Constants.kt are not part of this model.
- The other `AuthRepository` operations (sign-in, sign-up, sign-out, profile
  update, password reset) are never called by the modelled holders.

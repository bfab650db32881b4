# ConnectedIn core, modelled in Dafny

ConnectedIn is an iOS app for a church network in the Philippines, with a
small serverless backend. Around its SwiftUI screens and its AWS
Amplify/Cognito and DynamoDB calls sit a few self-contained pieces of logic.
This project models those pieces and proves what they promise:

- **Session and start-up** (`Session`, `Startup`, `Auth`)
  - the `AuthState` union and its hand-written equality;
  - the session manager's navigation, sign-out and current-user transitions;
  - the app initializer's splash and quick paths;
  - the login view model.
- **Church directory** (`ChurchServices`, `ChurchDirectory`, `Constants`)
  - the church service's API → cache → bundled-data fallback;
  - filtering by country group and the per-group card counts;
  - grouping by sub-region, the sorted section order and the header label;
  - the region tables.
- **Map carousel** (`Locations`): the map view model's cyclic "next church"
  by id, selection, the list toggle, and the nearest church under an abstract
  distance.
- **Contributions and donations** (`Contributions`, `Donation`)
  - the three category buckets and the loading/error flags;
  - the donation amount check, the recipient type and the simulated payment.
- **Local store** (`LocalStore`): `UserDefaultsManager` as a map from fixed
  keys to encoded blobs. This includes its two key-routing quirks:
  - `deleteTokens` removes the user key;
  - device tokens are written under one key and read under another.
- **Small pure functions**
  - `TestLocation` equality through a concatenated id (`TestLocations`);
  - hex colour channels by masks and shifts (`Colors`);
  - the backend's church update handler (`ChurchUpdate`).

`Models` holds the records shared by several modules:
- `Church`, `Contribution`, `User`, `PendingUser`, `Tokens`, `AuthUser`;
- `Option`;
- `Fetched`, the outcome of a call into code outside the model.

Calls to Amplify, URLSession, DynamoDB, the app bundle and `Task.sleep` are
not executed. Each method takes what such a call returned or threw as a
parameter.

Objects the source updates in place are Dafny classes:
- `SessionManager`, `AppInitializer`, `AuthViewModel`, `ChurchService`;
- `LocationsViewModel`, `ContributionViewModel`, `DonationViewModel`;
- `UserDefaultsManager`.

Each state-changing method ensures that its new state equals a pure function
of the old state and its inputs. The properties are proved as lemmas about
those functions.

## Model

| member | source | states |
|---|---|---|
| Session.Same | ConnectedIn/ConnectedIn/Managers/SessionManager.swift:17-37 | definition: the hand-written `AuthState ==`, case by case: a payload-free case equals itself, `confirmCode` compares its user name, the three user states compare only `userId`, different cases are unequal (its properties are in the rows below) |
| Session.SameIsComparedKeyEquality | ConnectedIn/ConnectedIn/Managers/SessionManager.swift:17-37 | `AuthState ==` holds exactly when the two states have the same case and the same compared string: the code name for `confirmCode`, the `userId` for the three user states, nothing for the rest |
| Session.PayloadFreeEqualsOnlyItself | ConnectedIn/ConnectedIn/Managers/SessionManager.swift:17-25 | a payload-free state (onboarding, signUp, login, forgotPassword, resetPassword, confirmMFACode) is `==` only to itself |
| Session.DifferentCasesNeverSame | ConnectedIn/ConnectedIn/Managers/SessionManager.swift:34-35 | states of different cases are never `==` |
| Session.ConfirmCodeSameIff | ConnectedIn/ConnectedIn/Managers/SessionManager.swift:26-27 | `confirmCode(a) == confirmCode(b)` iff `a == b` |
| Session.UserStatesCompareOnlyUserId | ConnectedIn/ConnectedIn/Managers/SessionManager.swift:28-33 | userDashboard, sessionUser and sessionChurch compare only the carried `userId` |
| Session.SameIgnoresUsername | ConnectedIn/ConnectedIn/Managers/SessionManager.swift:30-31 | two different users with the same id give `==` sessionUser states |
| Session.SessionUserDiffersFromOtherUserStates | ConnectedIn/ConnectedIn/Managers/SessionManager.swift:28-35 | `sessionUser(u)` is never `==` to `userDashboard(u)` or `sessionChurch(u)` |
| Session.SameIsEquivalence | ConnectedIn/ConnectedIn/Managers/SessionManager.swift:17-37 | the hand-written `==` is reflexive, symmetric and transitive |
| Session.InitialState | ConnectedIn/ConnectedIn/Managers/SessionManager.swift:45-52 | the initial state is `login` iff `hasSeenOnboarding` is set, `onboarding` iff it is not |
| Session.AfterSignOut | ConnectedIn/ConnectedIn/Managers/SessionManager.swift:74-86 | definition: the state after `signOut`, `login` when the provider call returns and the old state when it throws |
| Session.AfterCurrentAuthUser | ConnectedIn/ConnectedIn/Managers/SessionManager.swift:88-101 | definition: the state after `getCurrentAuthUser`, `sessionUser(user)` when the session fetch reports signed in and the user lookup returns, the old state on a failed fetch, a signed-out session or a failed lookup |
| Session.SignOutOutcome | ConnectedIn/ConnectedIn/Managers/SessionManager.swift:74-86 | sign-out ends in `login` when the provider call returns and leaves the state unchanged when it throws |
| Session.CurrentAuthUserMovesOnlyOnSignedInLookup | ConnectedIn/ConnectedIn/Managers/SessionManager.swift:88-101 | `getCurrentAuthUser` moves to `sessionUser(user)` exactly when the session is signed in and the lookup returns a user; otherwise the state is unchanged |
| Session.SessionManager.constructor | ConnectedIn/ConnectedIn/Managers/SessionManager.swift:45-52 | the manager starts in the flag-chosen state with no ConnectedIn user and an empty email |
| Session.SessionManager.ShowLogin | ConnectedIn/ConnectedIn/Managers/SessionManager.swift:54-57 | sets the state to `login` and changes nothing else |
| Session.SessionManager.ShowForgotPassword | ConnectedIn/ConnectedIn/Managers/SessionManager.swift:59-62 | sets the state to `forgotPassword` and changes nothing else |
| Session.SessionManager.ShowResetPassword | ConnectedIn/ConnectedIn/Managers/SessionManager.swift:64-67 | sets the state to `resetPassword` and changes nothing else |
| Session.SessionManager.ShowDashboard | ConnectedIn/ConnectedIn/Managers/SessionManager.swift:69-72 | sets the state to `sessionUser(user)` and changes nothing else |
| Session.SessionManager.SignOut | ConnectedIn/ConnectedIn/Managers/SessionManager.swift:74-86 | the new state is the sign-out transition of the old one |
| Session.SessionManager.GetCurrentAuthUser | ConnectedIn/ConnectedIn/Managers/SessionManager.swift:88-101 | the new state is the current-user transition of the old one, given the session and lookup outcomes |
| Startup.AfterCheckUserState | ConnectedIn/ConnectedIn/Initializers/AppInitializer.swift:98-122 | definition: the state `checkUserState` leaves, delegating to `getCurrentAuthUser` for a signed-in session and resetting to the onboarding-flag choice for a signed-out session or a failed fetch |
| Startup.AfterSplash | ConnectedIn/ConnectedIn/Initializers/AppInitializer.swift:66-88 | definition: the state the splash path leaves, running only the catch block's check when configuration throws, and a second check from the catch block when the splash delay throws after the first |
| Startup.AfterQuick | ConnectedIn/ConnectedIn/Initializers/AppInitializer.swift:51-61 | definition: the state the quick path leaves, one check after a successful configuration, and the splash path when configuration throws |
| Startup.SignedInSessionDelegates | ConnectedIn/ConnectedIn/Initializers/AppInitializer.swift:103-105 | a signed-in session hands the decision to the session manager's `getCurrentAuthUser` |
| Startup.NotSignedInFallsBackOnFlag | ConnectedIn/ConnectedIn/Initializers/AppInitializer.swift:106-112 | a signed-out session sets `login` if `hasSeenOnboarding`, else `onboarding` |
| Startup.FetchFailureActsAsSignedOut | ConnectedIn/ConnectedIn/Initializers/AppInitializer.swift:114-121 | a failing session fetch ends exactly where a signed-out session does |
| Startup.FreshManagerKeepsInitialStateOnLookupFailure | ConnectedIn/ConnectedIn/Initializers/AppInitializer.swift:103-105 | signed in but the lookup fails: a fresh manager keeps the state its initializer chose |
| Startup.SplashLandsOnStartupScreen | ConnectedIn/ConnectedIn/Initializers/AppInitializer.swift:66-88 | from a fresh manager, the splash path ends on login, onboarding, or the session of a user the provider returned |
| Startup.CheckKeepsStartupScreen | ConnectedIn/ConnectedIn/Initializers/AppInitializer.swift:98-122 | one `checkUserState` keeps the state among the start-up screens |
| Startup.AppInitializer.constructor | ConnectedIn/ConnectedIn/Initializers/AppInitializer.swift:35-46 | the first launch takes the splash path and later launches take the quick path; both end with `isInitializing` false and `hasLaunchedBefore` true |
| Startup.AppInitializer.QuickInitialize | ConnectedIn/ConnectedIn/Initializers/AppInitializer.swift:51-61 | on success, clears `isInitializing` without touching `hasLaunchedBefore`; on failure, falls back to the splash path |
| Startup.AppInitializer.InitializeWithSplash | ConnectedIn/ConnectedIn/Initializers/AppInitializer.swift:66-88 | ends with `isInitializing` false and `hasLaunchedBefore` true whether or not configuration or the delay throws |
| Startup.AppInitializer.CheckUserState | ConnectedIn/ConnectedIn/Initializers/AppInitializer.swift:98-122 | the new session state is the start-up decision for the observed session and lookup |
| Auth.LoginFailureMessage | ConnectedIn/ConnectedIn/ViewModels/AuthViewModel.swift:34-36 | the failure message is "Login failed: " followed by exactly the error description |
| Auth.LoginFailureMessageInjective | ConnectedIn/ConnectedIn/ViewModels/AuthViewModel.swift:34-36 | different descriptions give different messages |
| Auth.AfterLogin | ConnectedIn/ConnectedIn/ViewModels/AuthViewModel.swift:19-44 | definition: the fields after `login`, success copying the result's `isSignedIn` into `isAuthenticated` and failure setting the "Login failed: " message, each leaving the other field alone |
| Auth.LoginSuccess | ConnectedIn/ConnectedIn/ViewModels/AuthViewModel.swift:40-42 | success sets `isAuthenticated` to exactly `result.isSignedIn` (possibly false) and keeps the earlier `errorMessage` |
| Auth.LoginFailure | ConnectedIn/ConnectedIn/ViewModels/AuthViewModel.swift:33-36 | failure sets the message and leaves `isAuthenticated` unchanged |
| Auth.LoginIgnoresNextStep | ConnectedIn/ConnectedIn/ViewModels/AuthViewModel.swift:19-44 | the provider's next step has no effect on the outcome |
| Auth.AuthViewModel.constructor | ConnectedIn/ConnectedIn/ViewModels/AuthViewModel.swift:14-15 | starts unauthenticated with no error message |
| Auth.AuthViewModel.Login | ConnectedIn/ConnectedIn/ViewModels/AuthViewModel.swift:19-44 | the new fields are the login outcome applied to the old ones; only this view model is written |
| ChurchServices.LocalData | ConnectedIn/ConnectedIn/Networking/Services/ChurchService.swift:130-148 | definition: what `fetchChurchesLocalData` yields, the cache once it is loaded, otherwise the bundle file's decode result, or the "Failed to load mock data" failure when the file is missing |
| ChurchServices.Fetch | ConnectedIn/ConnectedIn/Networking/Services/ChurchService.swift:36-76 | definition: state and result of `fetchChurches`, caching and returning a delivered list, answering an `APIError` with the non-empty cache or else the local data, and failing on any other error with its description |
| ChurchServices.ApiSuccessCachesAndReturns | ConnectedIn/ConnectedIn/Networking/Services/ChurchService.swift:40-46 | a delivered list is cached, marks the cache loaded, and is returned |
| ChurchServices.ApiFailureUsesNonEmptyCache | ConnectedIn/ConnectedIn/Networking/Services/ChurchService.swift:47-53 | an `APIError` with a non-empty cache returns the cache |
| ChurchServices.ApiFailureWithEmptyCacheUsesLocalData | ConnectedIn/ConnectedIn/Networking/Services/ChurchService.swift:54-68 | an `APIError` with an empty cache returns whatever the local-data fetch yields |
| ChurchServices.OtherFailureSkipsCache | ConnectedIn/ConnectedIn/Networking/Services/ChurchService.swift:70-73 | any other error fails with its own description |
| ChurchServices.LoadedLocalDataIsCache | ConnectedIn/ConnectedIn/Networking/Services/ChurchService.swift:132-136 | once loaded, local data is the cache |
| ChurchServices.MissingBundleBeforeLoadFails | ConnectedIn/ConnectedIn/Networking/Services/ChurchService.swift:138-141 | before any load, a missing bundle fails with "Failed to load mock data" |
| ChurchServices.FailuresKeepState | ConnectedIn/ConnectedIn/Networking/Services/ChurchService.swift:47-73 | failure paths change neither the cache nor the loaded flag |
| ChurchServices.Results | ConnectedIn/ConnectedIn/Networking/Services/ChurchService.swift:36-76 | a series of fetches gives one result per call |
| ChurchServices.WithoutBundle | ConnectedIn/ConnectedIn/Networking/Services/ChurchService.swift:138-141 | the same calls with every bundle missing, position by position |
| ChurchServices.LoadedNeverReadsBundle | ConnectedIn/ConnectedIn/Networking/Services/ChurchService.swift:36-148 | once loaded, no later fetch's result depends on the bundle |
| ChurchServices.AfterSuccessNeverReadsBundle | ConnectedIn/ConnectedIn/Networking/Services/ChurchService.swift:36-148 | after one successful API fetch, no later fetch reads the bundle, even if that fetch returned an empty list |
| ChurchServices.ChurchService.constructor | ConnectedIn/ConnectedIn/Networking/Services/ChurchService.swift:36-76 | starts with an empty cache that is not loaded |
| ChurchServices.ChurchService.FetchChurchesLocalData | ConnectedIn/ConnectedIn/Networking/Services/ChurchService.swift:130-148 | returns the cache once loaded; otherwise the decoded bundle, or the missing-data failure |
| ChurchServices.ChurchService.FetchChurches | ConnectedIn/ConnectedIn/Networking/Services/ChurchService.swift:36-76 | the new state and the result are the fallback chain applied to the old state |
| Constants.CountryGroupsAreTheThreeIslandGroups | ConnectedIn/ConnectedIn/Utilities/Helpers/Constants.swift:20 | the country groups are Luzon, Visayas, Mindanao, in that order, without duplicates |
| Constants.RegionKeysAreCountryGroups | ConnectedIn/ConnectedIn/Utilities/Helpers/Constants.swift:21-25 | the keys of `regions` are exactly the country groups |
| Constants.SubRegionCounts | ConnectedIn/ConnectedIn/Utilities/Helpers/Constants.swift:22-24 | Luzon, Visayas and Mindanao have 7, 3 and 6 sub-regions |
| Constants.SubRegionsDisjoint | ConnectedIn/ConnectedIn/Utilities/Helpers/Constants.swift:22-24 | each sub-region list is free of duplicates and no two lists share a name |
| Constants.RawValuesDistinct | ConnectedIn/ConnectedIn/Utilities/Helpers/Constants.swift:12-18 | the five `APIError` messages are pairwise distinct |
| ChurchDirectory.Where | ConnectedIn/ConnectedIn/Views/User/Churches/ChurchesGroupView.swift:16-18 | filtering keeps exactly the churches whose key matches, and no more than the input |
| ChurchDirectory.WhereNone | ConnectedIn/ConnectedIn/Views/User/Churches/ChurchesGroupView.swift:16-18 | a key no church has selects nothing |
| ChurchDirectory.WhereKeepsOrder | ConnectedIn/ConnectedIn/Views/User/Churches/ChurchesGroupView.swift:16-18 | the filtered list is a subsequence of the input (input order kept) |
| ChurchDirectory.WhereMultiplicity | ConnectedIn/ConnectedIn/Views/User/Churches/ChurchesGroupView.swift:16-18 | each matching church occurs as often as in the input; others never |
| ChurchDirectory.WhereAppend | ConnectedIn/ConnectedIn/Views/User/Churches/ChurchesListView.swift:22-24 | appending a church extends the filtered list by it exactly when its key matches |
| ChurchDirectory.WhereIn | ConnectedIn/ConnectedIn/Views/User/Churches/ChurchesGroupView.swift:16-67 | filtering by a set of keys keeps everything iff every key is in the set |
| ChurchDirectory.WhereInNothing | ConnectedIn/ConnectedIn/Views/User/Churches/ChurchesGroupView.swift:17 | filtering by no keys selects nothing |
| ChurchDirectory.WhereInSplit | ConnectedIn/ConnectedIn/Views/User/Churches/ChurchesGroupView.swift:16-67 | filtering by one more key adds exactly that key's churches |
| ChurchDirectory.ChurchesForGroup | ConnectedIn/ConnectedIn/Views/User/Churches/ChurchesGroupView.swift:16-18 | definition: `churchesForGroup`, the churches whose `countryGroup` is the group, in input order |
| ChurchDirectory.ChurchesForGroupExact | ConnectedIn/ConnectedIn/Views/User/Churches/ChurchesGroupView.swift:16-18 | `churchesForGroup(g)` is exactly the churches of country group g, each as often as in the input, in input order |
| ChurchDirectory.GroupListsDisjoint | ConnectedIn/ConnectedIn/Views/User/Churches/ChurchesGroupView.swift:17 | the lists of two different groups share no church |
| ChurchDirectory.SetOf | ConnectedIn/ConnectedIn/Utilities/Helpers/Constants.swift:20 | the set of a key list has the same members |
| ChurchDirectory.Lengths | ConnectedIn/ConnectedIn/Views/User/Churches/ChurchesGroupView.swift:58-67 | one count per key, each the length of that key's filtered list |
| ChurchDirectory.LengthsSum | ConnectedIn/ConnectedIn/Views/User/Churches/ChurchesGroupView.swift:58-67 | the counts sum to the length of the concatenated sections |
| ChurchDirectory.SectionsPartition | ConnectedIn/ConnectedIn/Views/User/Churches/ChurchesGroupView.swift:58-67 | for distinct keys, the sections together hold exactly the churches whose key is listed |
| ChurchDirectory.SectionsSize | ConnectedIn/ConnectedIn/Views/User/Churches/ChurchesGroupView.swift:58-67 | for distinct keys, the sections hold at most every church, and all of them iff every church's key is listed |
| ChurchDirectory.CardCounts | ConnectedIn/ConnectedIn/Views/User/Churches/ChurchesGroupView.swift:58-67 | each region card's count is the length of the list passed to that group's list view |
| ChurchDirectory.RegionsStat | ConnectedIn/ConnectedIn/Views/User/Churches/ChurchesGroupView.swift:34 | definition: the "Regions" card's figure, the number of country groups |
| ChurchDirectory.CardCountsBoundedByTotal | ConnectedIn/ConnectedIn/Views/User/Churches/ChurchesGroupView.swift:16-67 | the card counts sum to at most "Total Churches", with equality iff every church's country group is one of the three; the "Regions" stat is 3 |
| ChurchDirectory.CoverImage | ConnectedIn/ConnectedIn/Views/User/Churches/ChurchesGroupView.swift:155-162 | definition: `coverImage`, a cover name for Luzon, Visayas and Mindanao and the empty string for every other region |
| ChurchDirectory.CoverImageForCountryGroups | ConnectedIn/ConnectedIn/Views/User/Churches/ChurchesGroupView.swift:155-162 | a cover image is non-empty exactly for the three country groups, and different groups get different images |
| ChurchDirectory.Grouping | ConnectedIn/ConnectedIn/Views/User/Churches/ChurchesListView.swift:14-27 | definition: what `groupedChurches` denotes, one entry per sub-region some church names, holding that sub-region's churches in input order |
| ChurchDirectory.GroupStep | ConnectedIn/ConnectedIn/Views/User/Churches/ChurchesListView.swift:22-24 | appending a church to its region's group keeps every group equal to the filter of the churches seen so far |
| ChurchDirectory.DropEmptyGroups | ConnectedIn/ConnectedIn/Views/User/Churches/ChurchesListView.swift:18-26 | dropping the empty groups leaves exactly the grouping of the input, whatever sub-regions were seeded |
| ChurchDirectory.GroupedChurches | ConnectedIn/ConnectedIn/Views/User/Churches/ChurchesListView.swift:14-27 | the loops build the grouping by region; the seeded country group has no effect |
| ChurchDirectory.EveryChurchInItsRegionGroup | ConnectedIn/ConnectedIn/Views/User/Churches/ChurchesListView.swift:22-24 | every church lands in the group keyed by its own region, even an unlisted one |
| ChurchDirectory.GroupsNonEmptyAndOrdered | ConnectedIn/ConnectedIn/Views/User/Churches/ChurchesListView.swift:22-26 | no group is empty, and each keeps input order |
| ChurchDirectory.FlattenGrouping | ConnectedIn/ConnectedIn/Views/User/Churches/ChurchesListView.swift:32 | rendering the groups under listed keys equals filtering the input by each key in turn |
| ChurchDirectory.GroupingPartitions | ConnectedIn/ConnectedIn/Views/User/Churches/ChurchesListView.swift:22-32 | rendered under all their keys, the groups hold every church exactly once |
| ChurchDirectory.LexLessIrreflexive | ConnectedIn/ConnectedIn/Views/User/Churches/ChurchesListView.swift:32 | no key sorts before itself |
| ChurchDirectory.LexLessTransitive | ConnectedIn/ConnectedIn/Views/User/Churches/ChurchesListView.swift:32 | the string order used for sorting is transitive |
| ChurchDirectory.LexLessTotal | ConnectedIn/ConnectedIn/Views/User/Churches/ChurchesListView.swift:32 | any two different keys are ordered one way or the other |
| ChurchDirectory.HasLeast | ConnectedIn/ConnectedIn/Views/User/Churches/ChurchesListView.swift:32 | every non-empty key set has a least key |
| ChurchDirectory.PrependLeast | ConnectedIn/ConnectedIn/Views/User/Churches/ChurchesListView.swift:32 | the least key followed by the sorted rest is the sorted whole |
| ChurchDirectory.SortedKeys | ConnectedIn/ConnectedIn/Views/User/Churches/ChurchesListView.swift:32 | `keys.sorted()` lists each key once, in strictly ascending order |
| ChurchDirectory.AscendingHasNoDuplicates | ConnectedIn/ConnectedIn/Views/User/Churches/ChurchesListView.swift:32 | a strictly ascending key list has no duplicates |
| ChurchDirectory.RenderedSectionsPartition | ConnectedIn/ConnectedIn/Views/User/Churches/ChurchesListView.swift:22-32 | the sections rendered in ascending key order hold every input church exactly once |
| ChurchDirectory.DigitChar | ConnectedIn/ConnectedIn/Views/User/Churches/ChurchesListView.swift:97 | a digit is a character '0'..'9' |
| ChurchDirectory.Decimal | ConnectedIn/ConnectedIn/Views/User/Churches/ChurchesListView.swift:97 | a count's decimal text is a non-empty string of digits |
| ChurchDirectory.DecimalRoundTrip | ConnectedIn/ConnectedIn/Views/User/Churches/ChurchesListView.swift:97 | reading the decimal text back gives the count |
| ChurchDirectory.HeaderLabel | ConnectedIn/ConnectedIn/Views/User/Churches/ChurchesListView.swift:97 | definition: the header text, the count in decimal, a space, then "Church" or "Churches" |
| ChurchDirectory.HeaderLabelReadsCount | ConnectedIn/ConnectedIn/Views/User/Churches/ChurchesListView.swift:97 | the header label is the count's digits, a space, then "Church" for 1 and "Churches" for any other count, 0 included |
| ChurchDirectory.HeaderLabelExamples | ConnectedIn/ConnectedIn/Views/User/Churches/ChurchesListView.swift:97 | "1 Church", "0 Churches", "12 Churches" |
| Locations.Focus | ConnectedIn/ConnectedIn/ViewModels/Store/User/Connect/LocationsViewModel.swift:75-81 | the camera is centred on the coordinate with the given span in both directions |
| Locations.FirstIndexOfId | ConnectedIn/ConnectedIn/ViewModels/Store/User/Connect/LocationsViewModel.swift:84 | the index found is the first church with the id; none iff no current church or no church has that id |
| Locations.FirstIndexIs | ConnectedIn/ConnectedIn/ViewModels/Store/User/Connect/LocationsViewModel.swift:84 | the first position holding the id is the index found |
| Locations.NextChurch | ConnectedIn/ConnectedIn/ViewModels/Store/User/Connect/LocationsViewModel.swift:83-98 | definition: the church `nextButtonPressed` shows, the one after the first id match or the first church after the last, and none when it returns early |
| Locations.Pressed | ConnectedIn/ConnectedIn/ViewModels/Store/User/Connect/LocationsViewModel.swift:83-98 | definition: `mapChurch` after one press, the shown church, or the old value after an early return |
| Locations.NextAdvancesFromFirstMatch | ConnectedIn/ConnectedIn/ViewModels/Store/User/Connect/LocationsViewModel.swift:84-97 | from the first match at i, next is `churches[i+1]`, or `churches[0]` at the last index |
| Locations.NextWithoutMatchChangesNothing | ConnectedIn/ConnectedIn/ViewModels/Store/User/Connect/LocationsViewModel.swift:84-87 | with no current church or an id not in the list, nothing changes |
| Locations.DuplicateIdAdvancesFromFirst | ConnectedIn/ConnectedIn/ViewModels/Store/User/Connect/LocationsViewModel.swift:84 | a later church sharing an id advances from the first occurrence |
| Locations.NextStepsInOrder | ConnectedIn/ConnectedIn/ViewModels/Store/User/Connect/LocationsViewModel.swift:89-97 | with distinct ids, a press moves to the following church, wrapping from the last to the first |
| Locations.PressesCompose | ConnectedIn/ConnectedIn/ViewModels/Store/User/Connect/LocationsViewModel.swift:83-98 | a+b presses are a presses followed by b presses |
| Locations.PressesAdvance | ConnectedIn/ConnectedIn/ViewModels/Store/User/Connect/LocationsViewModel.swift:89-91 | with distinct ids, k presses from church i reach church i+k while it exists |
| Locations.WrapFromLast | ConnectedIn/ConnectedIn/ViewModels/Store/User/Connect/LocationsViewModel.swift:92-93 | from the last church, i+1 presses reach church i |
| Locations.CycleSplits | ConnectedIn/ConnectedIn/ViewModels/Store/User/Connect/LocationsViewModel.swift:83-98 | a full cycle is the presses to the last church, then one more, then the rest |
| Locations.FullCycleReturnsToStart | ConnectedIn/ConnectedIn/ViewModels/Store/User/Connect/LocationsViewModel.swift:89-97 | with distinct ids, `churches.count` presses return to the starting church |
| Locations.Nearest | ConnectedIn/ConnectedIn/ViewModels/Store/User/Connect/LocationsViewModel.swift:149-157 | definition: `churches.min` by distance, none for an empty list |
| Locations.NearestIndex | ConnectedIn/ConnectedIn/ViewModels/Store/User/Connect/LocationsViewModel.swift:149-157 | the chosen church has minimal distance, strictly less than every earlier one |
| Locations.NearestIsFirstMinimum | ConnectedIn/ConnectedIn/ViewModels/Store/User/Connect/LocationsViewModel.swift:149-157 | the nearest church is the first one of minimal distance |
| Locations.LocationsViewModel.constructor | ConnectedIn/ConnectedIn/ViewModels/Store/User/Connect/LocationsViewModel.swift:15-29 | no churches, nothing selected, the list hidden, the camera at its initial position |
| Locations.LocationsViewModel.ToggleChurchesList | ConnectedIn/ConnectedIn/ViewModels/Store/User/Connect/LocationsViewModel.swift:69-73 | flips `showChurchesList`, so two toggles are the identity |
| Locations.LocationsViewModel.ShowNextChurch | ConnectedIn/ConnectedIn/ViewModels/Store/User/Connect/LocationsViewModel.swift:75-81 | selects the church and centres the map on it with span 0.1 |
| Locations.LocationsViewModel.NextButtonPressed | ConnectedIn/ConnectedIn/ViewModels/Store/User/Connect/LocationsViewModel.swift:83-98 | the selection becomes the next church by first matching id; without a match nothing changes |
| Locations.LocationsViewModel.LocationsUpdated | ConnectedIn/ConnectedIn/ViewModels/Store/User/Connect/LocationsViewModel.swift:117-122 | the last reported location becomes the user's location and the map centres there; an empty report changes nothing |
| Locations.LocationsViewModel.UpdateMapPosition | ConnectedIn/ConnectedIn/ViewModels/Store/User/Connect/LocationsViewModel.swift:124-129 | centres the map on the coordinate with span 1.0 |
| Locations.LocationsViewModel.SelectChurch | ConnectedIn/ConnectedIn/ViewModels/Store/User/Connect/LocationsViewModel.swift:144-147 | selects the church and centres the map on it with span 1.0 |
| Locations.LocationsViewModel.FindNearestChurch | ConnectedIn/ConnectedIn/ViewModels/Store/User/Connect/LocationsViewModel.swift:149-157 | does nothing without a user location; otherwise none for an empty list, else the first church of minimal distance |
| Contributions.Bucket | ConnectedIn/ConnectedIn/ViewModels/Store/User/Contribute/ContributionViewModel.swift:47-49 | a bucket holds exactly the contributions of its category |
| Contributions.BucketAppend | ConnectedIn/ConnectedIn/ViewModels/Store/User/Contribute/ContributionViewModel.swift:47-49 | bucketing distributes over concatenation, so input order is kept |
| Contributions.BucketMultiplicity | ConnectedIn/ConnectedIn/ViewModels/Store/User/Contribute/ContributionViewModel.swift:47-49 | each contribution occurs in its bucket as often as in the input |
| Contributions.Categorize | ConnectedIn/ConnectedIn/ViewModels/Store/User/Contribute/ContributionViewModel.swift:46-50 | definition: the three buckets `categorizeContributions` fills, each the contributions of one category in input order |
| Contributions.CategorizePartitions | ConnectedIn/ConnectedIn/Models/Contribute/Contribution.swift:18-22 | with exactly three categories, the buckets hold every contribution exactly once and their sizes sum to the total |
| Contributions.BucketsDisjoint | ConnectedIn/ConnectedIn/ViewModels/Store/User/Contribute/ContributionViewModel.swift:47-49 | no contribution is in two buckets |
| Contributions.Started | ConnectedIn/ConnectedIn/ViewModels/Store/User/Contribute/ContributionViewModel.swift:26-54 | definition: starting `fetchContributions` or `makeContribution` sets `isLoading` and nothing else |
| Contributions.Received | ConnectedIn/ConnectedIn/ViewModels/Store/User/Contribute/ContributionViewModel.swift:38-41 | definition: a delivered list is published and bucketed and loading ends |
| Contributions.FailedWith | ConnectedIn/ConnectedIn/ViewModels/Store/User/Contribute/ContributionViewModel.swift:31-34 | definition: a failed completion sets the error message and ends loading |
| Contributions.ContributionAnswered | ConnectedIn/ConnectedIn/ViewModels/Store/User/Contribute/ContributionViewModel.swift:65-68 | definition: a `true` answer starts a new fetch and a `false` answer changes nothing |
| Contributions.ReceivedShowsList | ConnectedIn/ConnectedIn/ViewModels/Store/User/Contribute/ContributionViewModel.swift:38-41 | a delivered list replaces the contributions, is re-bucketed, ends loading and keeps the error message |
| Contributions.FailureKeepsLists | ConnectedIn/ConnectedIn/ViewModels/Store/User/Contribute/ContributionViewModel.swift:31-34 | a failure sets the message, ends loading, and leaves the lists |
| Contributions.DeclinedContributionStaysLoading | ConnectedIn/ConnectedIn/ViewModels/Store/User/Contribute/ContributionViewModel.swift:53-71 | a contribution answered false leaves `isLoading` true |
| Contributions.AcceptedContributionRefetches | ConnectedIn/ConnectedIn/ViewModels/Store/User/Contribute/ContributionViewModel.swift:65-68 | a contribution answered true starts the fetch again |
| Contributions.DeliveriesKeepError | ConnectedIn/ConnectedIn/ViewModels/Store/User/Contribute/ContributionViewModel.swift:26-44 | no sequence of successful deliveries clears an earlier error message |
| Contributions.ContributionViewModel.constructor | ConnectedIn/ConnectedIn/ViewModels/Store/User/Contribute/ContributionViewModel.swift:22-24 | starts with empty lists and the first fetch under way |
| Contributions.ContributionViewModel.FetchContributions | ConnectedIn/ConnectedIn/ViewModels/Store/User/Contribute/ContributionViewModel.swift:26-27 | sets `isLoading` before calling the service |
| Contributions.ContributionViewModel.OnContributions | ConnectedIn/ConnectedIn/ViewModels/Store/User/Contribute/ContributionViewModel.swift:38-41 | the delivery transition |
| Contributions.ContributionViewModel.OnFailure | ConnectedIn/ConnectedIn/ViewModels/Store/User/Contribute/ContributionViewModel.swift:31-34 | the failure transition |
| Contributions.ContributionViewModel.CategorizeContributions | ConnectedIn/ConnectedIn/ViewModels/Store/User/Contribute/ContributionViewModel.swift:46-50 | the three bucket fields become the categorization of the list |
| Contributions.ContributionViewModel.MakeContribution | ConnectedIn/ConnectedIn/ViewModels/Store/User/Contribute/ContributionViewModel.swift:53-54 | sets `isLoading` before calling the service |
| Contributions.ContributionViewModel.OnContributionMade | ConnectedIn/ConnectedIn/ViewModels/Store/User/Contribute/ContributionViewModel.swift:62-69 | true refetches; false changes nothing |
| Donation.IsValidDonation | ConnectedIn/ConnectedIn/ViewModels/Store/User/Contribute/DonationViewModel.swift:40-42 | definition: `isValidDonation`, an amount from 100 to 50000 inclusive |
| Donation.ValidDonationBounds | ConnectedIn/ConnectedIn/ViewModels/Store/User/Contribute/DonationViewModel.swift:40-42 | an amount is valid iff 100 ≤ amount ≤ 50000, both bounds inclusive |
| Donation.InitialAndPresetAmounts | ConnectedIn/ConnectedIn/Views/User/Contribute/SupportingViews/DonationView.swift:46-77 | the initial 0 is invalid (button disabled); every preset 100/500/1000/5000 is valid |
| Donation.RecipientType | ConnectedIn/ConnectedIn/ViewModels/Store/User/Contribute/DonationViewModel.swift:27-38 | the type is "Organization" exactly for recipients that are not a church, missionary or ministry |
| Donation.RecipientTypeInjective | ConnectedIn/ConnectedIn/ViewModels/Store/User/Contribute/DonationViewModel.swift:27-38 | the type names tell the recipient kinds apart |
| Donation.RecipientName | ConnectedIn/ConnectedIn/ViewModels/Store/User/Contribute/DonationViewModel.swift:23-25 | the recipient name is the recipient's `name` |
| Donation.AfterDonation | ConnectedIn/ConnectedIn/ViewModels/Store/User/Contribute/DonationViewModel.swift:50-65 | definition: the alerts after `processDonation`, the success alert when the delay completes, the error alert and message when it throws |
| Donation.DonationOutcomes | ConnectedIn/ConnectedIn/ViewModels/Store/User/Contribute/DonationViewModel.swift:50-65 | success sets only the success alert; an error sets the message and the error alert and leaves the success alert |
| Donation.DonationViewModel.constructor | ConnectedIn/ConnectedIn/ViewModels/Store/User/Contribute/DonationViewModel.swift:13-17 | amount 0 (invalid), GCash, both alerts off, no message |
| Donation.DonationViewModel.ProcessDonation | ConnectedIn/ConnectedIn/ViewModels/Store/User/Contribute/DonationViewModel.swift:50-65 | the alerts become the donation outcome; the amount is never checked |
| LocalStore.KeysDistinct | ConnectedIn/ConnectedIn/Utilities/Local/UserDefaultsManager.swift:16-20 | the five storage keys are pairwise distinct |
| LocalStore.DataAt | ConnectedIn/ConnectedIn/Utilities/Local/UserDefaultsManager.swift:38-47 | a key yields bytes iff it holds data |
| LocalStore.UserIn | ConnectedIn/ConnectedIn/Utilities/Local/UserDefaultsManager.swift:38-47 | definition: `getUser`, the local user encoded under the user key, nil otherwise |
| LocalStore.PendingUserIn | ConnectedIn/ConnectedIn/Utilities/Local/UserDefaultsManager.swift:63-72 | definition: `getPendingUser`, the pending user encoded under the pending-user key, nil otherwise |
| LocalStore.ConnectedInUserIn | ConnectedIn/ConnectedIn/Utilities/Local/UserDefaultsManager.swift:98-107 | definition: `getConnectedInUser`, the user encoded under the ConnectedIn-user key, nil otherwise |
| LocalStore.TokensIn | ConnectedIn/ConnectedIn/Utilities/Local/UserDefaultsManager.swift:122-131 | definition: `getTokens`, the tokens encoded under the token key, nil otherwise |
| LocalStore.DeviceTokensIn | ConnectedIn/ConnectedIn/Utilities/Local/UserDefaultsManager.swift:133-141 | definition: `getDeviceTokens`, a string encoded under the token key (not the device-token key), nil otherwise |
| LocalStore.GettersReadOnlyMatchingData | ConnectedIn/ConnectedIn/Utilities/Local/UserDefaultsManager.swift:38-141 | each getter returns a value iff its key holds bytes that decode to its type, and the device-token getter reads the token key |
| LocalStore.Saved | ConnectedIn/ConnectedIn/Utilities/Local/UserDefaultsManager.swift:30-36 | a save that encodes stores the bytes under the key; one that fails to encode leaves the store unchanged |
| LocalStore.Removed | ConnectedIn/ConnectedIn/Utilities/Local/UserDefaultsManager.swift:49-52 | a delete leaves the key absent |
| LocalStore.Apply | ConnectedIn/ConnectedIn/Utilities/Local/UserDefaultsManager.swift:30-146 | definition: the store after one save or delete, each writing or removing its own key; `deleteTokens` removes the ConnectedIn-user key |
| LocalStore.WritesTouchOneKey | ConnectedIn/ConnectedIn/Utilities/Local/UserDefaultsManager.swift:30-146 | every save or delete leaves every other key as it was |
| LocalStore.SaveThenGet | ConnectedIn/ConnectedIn/Utilities/Local/UserDefaultsManager.swift:30-131 | saving then getting returns the saved user, pending user, ConnectedIn user and tokens |
| LocalStore.DeleteThenGet | ConnectedIn/ConnectedIn/Utilities/Local/UserDefaultsManager.swift:49-112 | deleting then getting returns nothing for the three users |
| LocalStore.DeleteTokensKeepsTokens | ConnectedIn/ConnectedIn/Utilities/Local/UserDefaultsManager.swift:122-146 | `deleteTokens` removes the ConnectedIn user key: tokens still read back, the user no longer does |
| LocalStore.DeviceTokenNotReadBack | ConnectedIn/ConnectedIn/Utilities/Local/UserDefaultsManager.swift:90-141 | saving a device token never changes what `getDeviceTokens` returns |
| LocalStore.NoDeviceTokensUnderInvariant | ConnectedIn/ConnectedIn/Utilities/Local/UserDefaultsManager.swift:133-141 | while the token key holds tokens or nothing, `getDeviceTokens` returns nothing |
| LocalStore.OperationsNeverYieldDeviceTokens | ConnectedIn/ConnectedIn/Utilities/Local/UserDefaultsManager.swift:30-146 | every sequence of manager operations keeps that invariant, so `getDeviceTokens` never returns a token |
| LocalStore.UserDefaultsManager.constructor | ConnectedIn/ConnectedIn/Utilities/Local/UserDefaultsManager.swift:12-22 | the manager wraps the given store |
| LocalStore.UserDefaultsManager.SaveUser | ConnectedIn/ConnectedIn/Utilities/Local/UserDefaultsManager.swift:30-36 | the store after `saveUser` |
| LocalStore.UserDefaultsManager.GetUser | ConnectedIn/ConnectedIn/Utilities/Local/UserDefaultsManager.swift:38-47 | returns the stored user, if its bytes decode |
| LocalStore.UserDefaultsManager.DeleteUser | ConnectedIn/ConnectedIn/Utilities/Local/UserDefaultsManager.swift:49-52 | the store after `deleteUser` |
| LocalStore.UserDefaultsManager.SavePendingUser | ConnectedIn/ConnectedIn/Utilities/Local/UserDefaultsManager.swift:55-61 | the store after `savePendingUser` |
| LocalStore.UserDefaultsManager.GetPendingUser | ConnectedIn/ConnectedIn/Utilities/Local/UserDefaultsManager.swift:63-72 | returns the stored pending user, if its bytes decode |
| LocalStore.UserDefaultsManager.DeletePendingUser | ConnectedIn/ConnectedIn/Utilities/Local/UserDefaultsManager.swift:74-77 | the store after `deletePendingUser` |
| LocalStore.UserDefaultsManager.SaveConnectedInUser | ConnectedIn/ConnectedIn/Utilities/Local/UserDefaultsManager.swift:82-88 | the store after `saveConnectedInUser` |
| LocalStore.UserDefaultsManager.SaveDeviceToken | ConnectedIn/ConnectedIn/Utilities/Local/UserDefaultsManager.swift:90-96 | the store after `saveDeviceToken`, written under the device-token key |
| LocalStore.UserDefaultsManager.GetConnectedInUser | ConnectedIn/ConnectedIn/Utilities/Local/UserDefaultsManager.swift:98-107 | returns the stored ConnectedIn user, if its bytes decode |
| LocalStore.UserDefaultsManager.DeleteConnectedInUser | ConnectedIn/ConnectedIn/Utilities/Local/UserDefaultsManager.swift:109-112 | the store after `deleteConnectedInUser` |
| LocalStore.UserDefaultsManager.SaveTokens | ConnectedIn/ConnectedIn/Utilities/Local/UserDefaultsManager.swift:114-120 | the store after `saveTokens` |
| LocalStore.UserDefaultsManager.GetTokens | ConnectedIn/ConnectedIn/Utilities/Local/UserDefaultsManager.swift:122-131 | returns the stored tokens, if their bytes decode |
| LocalStore.UserDefaultsManager.GetDeviceTokens | ConnectedIn/ConnectedIn/Utilities/Local/UserDefaultsManager.swift:133-141 | reads the token key and returns a string only if those bytes decode as one |
| LocalStore.UserDefaultsManager.DeleteTokens | ConnectedIn/ConnectedIn/Utilities/Local/UserDefaultsManager.swift:143-146 | the store after `deleteTokens`, which removes the ConnectedIn user key |
| TestLocations.Id | ConnectedIn/ConnectedIn/Models/Location.swift:20-22 | the id is the name followed by the location name |
| TestLocations.Equal | ConnectedIn/ConnectedIn/Models/Location.swift:25-27 | definition: the hand-written `==`, equality of the `id`s |
| TestLocations.EqualIgnoresDetails | ConnectedIn/ConnectedIn/Models/Location.swift:25-27 | equality ignores coordinates, description, images and link |
| TestLocations.EqualSameSplit | ConnectedIn/ConnectedIn/Models/Location.swift:20-27 | for names of equal length, equality holds iff name and location name both match |
| TestLocations.EqualNamesMayDiffer | ConnectedIn/ConnectedIn/Models/Location.swift:20-27 | ("ab", "c") equals ("a", "bc"): the id is not injective |
| TestLocations.EqualIsEquivalence | ConnectedIn/ConnectedIn/Models/Location.swift:25-27 | equality is reflexive, symmetric and transitive |
| Colors.RedByte | ConnectedIn/ConnectedIn/Utilities/Extensions/ColorExtensions.swift:13 | definition: the red channel, `(hex & 0xff0000) >> 16` |
| Colors.GreenByte | ConnectedIn/ConnectedIn/Utilities/Extensions/ColorExtensions.swift:14 | definition: the green channel, `(hex & 0xff00) >> 8` |
| Colors.BlueByte | ConnectedIn/ConnectedIn/Utilities/Extensions/ColorExtensions.swift:15 | definition: the blue channel, `(hex & 0xff) >> 0` |
| Colors.ChannelsAreBytes | ConnectedIn/ConnectedIn/Utilities/Extensions/ColorExtensions.swift:13-15 | the red, green and blue channels each lie in 0..255 |
| Colors.ChannelsRebuildLowBits | ConnectedIn/ConnectedIn/Utilities/Extensions/ColorExtensions.swift:13-15 | the three channels put back together give the low 24 bits of `hex` |
| Colors.HighBitsIgnored | ConnectedIn/ConnectedIn/Utilities/Extensions/ColorExtensions.swift:13-15 | bits above bit 23 do not affect the channels |
| Colors.FromHex | ConnectedIn/ConnectedIn/Utilities/Extensions/ColorExtensions.swift:12-17 | every component lies in [0, 1] and the opacity passes through |
| Colors.DefaultOpacityIsOne | ConnectedIn/ConnectedIn/Utilities/Extensions/ColorExtensions.swift:12 | opacity defaults to 1 |
| Colors.ConstantChannels | ConnectedIn/ConnectedIn/Utilities/Extensions/ColorExtensions.swift:19-30 | connectedInMain is (25, 151, 121), connectedInRed (151, 25, 33), darkGray (51, 51, 51) |
| Colors.DashboardHeaderIsHex | ConnectedIn/ConnectedIn/Utilities/Extensions/ColorExtensions.swift:19-30 | the dashboard header colour is the colour of hex 0x36706E |
| ChurchUpdate.Placeholder | backend/src/handlers/churches/update.js:19-20 | a field's placeholder is ':' followed by the field name |
| ChurchUpdate.PlaceholderInjective | backend/src/handlers/churches/update.js:19-20 | two fields share a placeholder iff they are the same field |
| ChurchUpdate.Clause | backend/src/handlers/churches/update.js:18-20 | definition: the text one body member appends, `, key = :key`, or nothing for `id` |
| ChurchUpdate.ClauseAssignsPlaceholder | backend/src/handlers/churches/update.js:19-20 | the clause appended for a non-id field assigns the field its own placeholder |
| ChurchUpdate.Clauses | backend/src/handlers/churches/update.js:16-22 | definition: the clauses of all members, in body order |
| ChurchUpdate.Bindings | backend/src/handlers/churches/update.js:12-22 | definition: the value map, the timestamp under `:updatedAt`, then each non-id member under its placeholder, a later binding replacing an earlier one |
| ChurchUpdate.ClausesStep | backend/src/handlers/churches/update.js:17-22 | the clauses of one more field are the old clauses followed by its clause |
| ChurchUpdate.BindingStep | backend/src/handlers/churches/update.js:20 | one loop step over a non-id field binds its placeholder to its value |
| ChurchUpdate.IdStep | backend/src/handlers/churches/update.js:18 | a loop step over `id` changes neither the expression nor the bindings |
| ChurchUpdate.BuildUpdate | backend/src/handlers/churches/update.js:11-22 | the loop yields "SET updatedAt = :updatedAt" followed by each non-id field's clause in order, and the bindings of the timestamp and each non-id field |
| ChurchUpdate.WithoutId | backend/src/handlers/churches/update.js:18 | the body without its `id` member, and nothing else removed |
| ChurchUpdate.IdIgnored | backend/src/handlers/churches/update.js:18 | the expression and bindings are those of the body without `id` |
| ChurchUpdate.BindingNames | backend/src/handlers/churches/update.js:12-22 | a name is bound iff it is ':updatedAt' or the placeholder of a non-id field |
| ChurchUpdate.IdNeverBound | backend/src/handlers/churches/update.js:18 | ':id' is never bound |
| ChurchUpdate.MemberBound | backend/src/handlers/churches/update.js:17-22 | each non-id field's value is bound to its placeholder |
| ChurchUpdate.TimestampKept | backend/src/handlers/churches/update.js:12-14 | without an `updatedAt` field, ':updatedAt' is bound to the timestamp |
| ChurchUpdate.UpdatedAtOverridden | backend/src/handlers/churches/update.js:12-21 | an `updatedAt` field repeats "updatedAt = :updatedAt" in the expression and replaces the timestamp binding with its own value |
| ChurchUpdate.BindingCount | backend/src/handlers/churches/update.js:12-22 | without an `updatedAt` field there are exactly 1 + (number of non-id fields) bindings |
| ChurchUpdate.ErrorResponse | backend/src/handlers/churches/update.js:44-56 | the error status is the error's code unless it is absent or 0, then 500; the body is `{error}` with the error's message unless it is absent or empty, then "Could not update church." |
| ChurchUpdate.Params | backend/src/handlers/churches/update.js:24-32 | definition: the update parameters, the path id as key, the base expression followed by the clauses, and the bindings |
| ChurchUpdate.Handle | backend/src/handlers/churches/update.js:4-57 | definition: the response, an error response for a path or body failure, otherwise 200 with the returned attributes, or the database error shaped as an error response |
| ChurchUpdate.KeyIsPathId | backend/src/handlers/churches/update.js:6-32 | the record key is the path id, and a body `id` changes neither the key nor the update |
| ChurchUpdate.SuccessReturnsAttributes | backend/src/handlers/churches/update.js:34-43 | a successful update answers 200 with the returned attributes |
| ChurchUpdate.ErrorShaping | backend/src/handlers/churches/update.js:44-56 | a thrown update error keeps its non-zero code (else 500) and its non-empty message (else the default) |
| ChurchUpdate.EarlyFailureSkipsUpdate | backend/src/handlers/churches/update.js:5-56 | a missing path or an unparsable body answers 500 with the thrown message, whatever the database would do |
| ChurchUpdate.Handler | backend/src/handlers/churches/update.js:4-57 | the handler's response is the response the specification function gives |

## Left out

- SwiftUI views, layout and styling: only the helpers named above are modelled.
- Amplify/Cognito, URLSession, DynamoDB and the app bundle are not executed. Their results are method parameters: signed-in flag, user, success or error, delivered list, bundle contents.
- Concurrency is left out: `Task`, Combine publishers and sinks, `DispatchQueue`, `MainActor`. Each callback or awaited call is one atomic method, and `Task.sleep` is an outcome parameter.
- Floating point
  - Coordinates, spans and the `/255` of colour components are Dafny `real`s, so rounding is not modelled.
  - `CLLocation` distances are an uninterpreted function; NaN distances are not modelled.
- The `CLLocationManager` authorisation callbacks of the map view model are OS plumbing. Only `didUpdateLocations` is modelled (as `LocationsUpdated`).
- JSON encoding and decoding in the local store are tagged blobs.
  - Bytes decode exactly when the same type encoded them, so a cross-type decode that would succeed on real JSON is not modelled.
  - An encoder failure is a boolean parameter.
- LocalUser's fields other than `email` are not part of this model.
- APIClient is not part of this model. Request failures are assumed to reach the church service as `APIError`, as its outer catch rewraps them.
- ContributionService's hard-coded data, the other view models and services, and the duplicate `Networking/SessionManager.swift` and `ConnectedIn/AppInitializer.swift` are not part of this model.
- The Swift tests and mocks exercise an `AuthViewModel` API the shipped view model does not define, so they are not modelled.
- `print`/`console.error` logging is not modelled.
- The session manager's `connectedInUser`/`currentEmail` are kept only as initial values; no method in scope writes them.
- ChurchUpdate.BuildUpdate: takes the parsed body's members in one given order.
  - JavaScript's `Object.keys` lists integer-like keys first in ascending order; that ordering is not modelled.
  - A body that parses to a string or an array, whose indices `Object.keys` would list, is not modelled.
- ChurchUpdate.MemberBound: requires the body's keys to be distinct, which `JSON.parse` guarantees by keeping the last duplicate. Parsing is not modelled.
- ChurchUpdate.Handle: the headers (CORS) and the `TableName`/`ReturnValues` parameters are constants and are not modelled.
- ChurchUpdate.Handle: a path without an `id` would send an undefined key to DynamoDB; that path is folded into the database outcome parameter.
- Colors.HighBitsIgnored: `hex` is a 64-bit word and addition wraps, whereas Swift's `Int` arithmetic would trap on overflow.
- Colors.FromHex: the exact `Double` values of `/255` are not modelled.
- String comparison: Swift's `String` `==`, `<` and `Dictionary` keys use Unicode canonical equivalence, while the model compares `seq<char>` code point by code point.
  - So "é" written as U+00E9 and as "e" followed by U+0301 are equal in Swift and different here.
  - The two agree on NFC-normalised text.
  - Affected members: Session.Same, Session.ConfirmCodeSameIff, ChurchDirectory.Where, ChurchDirectory.ChurchesForGroup, ChurchDirectory.Grouping, ChurchDirectory.LexLess, ChurchDirectory.SortedKeys, Locations.FirstIndexOfId and TestLocations.Equal.
- ChurchUpdate.Bindings: JSON numbers, the timestamp among them, are exact `real`s rather than IEEE doubles, so the rounding `JSON.parse` applies to long or fractional literals is not modelled.

# EduActivity: a Dafny model of the booking platform's core

EduActivity is a marketplace for educational activity providers. A React single-page frontend
sits over a Django REST backend. This project models the parts of both that decide behaviour,
and proves properties of that model:

- **Authenticated client** (`AuthSession`, `AuthSessionProperties`, `AuthScenarios`). The axios
  instance attaches the stored access token to every request. On a 401 it refreshes the token
  once and replays the request, or it purges the session and redirects to `/login`. The
  `login`, `register` and `logout` thunks change the token store.
  - The network is a script of answers, consumed one per transmission.
  - `localStorage` is a map from key to string.
  - `window.location.href` is a log of redirects.
  - The model is a total function over that world. A call that runs out of scripted answers is
    `Unsettled`.
  - A class `Session` holds the same world and changes it in place.
- **Redux slices** (`AuthState`, `ProvidersSlice`, `SearchSlice`). Each slice is a reducer
  `Next` over its record, plus a store class whose `Dispatch` assigns the fields the way the
  Immer reducers do. `fetchProviders` turns its filter object into the query of `/api/search/`.
- **Pages** (`BookingTabs`, `CategoriesPage`, `SearchPage`). These cover:
  - the booking tabs and badges of the provider dashboard;
  - grouping providers into category buckets, with the tab counts;
  - the search page's local filters and the URL query it writes.
- **Backend models** (`ProviderModels`, `Categories`, `Subscriptions`): a service's duration
  display, a price's validity window, a booking's total, a category's full path and a
  subscription's activity.
- **Serializer validation** (`ProviderSerializers`): durations, pricings, bookings, and the
  profile defaults filled in on creation.
- **Views** (`ProviderViews`, `EduactivityViews`, `UserViews`). These cover:
  - the permission classes;
  - the querysets of the list, detail, search and booking views;
  - the profile-view counter;
  - the login decision table, password change and reset, and e-mail verification.

Shared helpers live in `Seqs` (order-preserving filter, descending insertion sort), `Text`
(substring and ASCII lower-casing, decimal rendering and parsing), `Js` (JSON values with
JavaScript truthiness, `||` and `String()`), `Accounts` (the user record) and `Wrappers`.

Modelling conventions:

- Dates are day numbers. "Today" is always a parameter.
- Decimal amounts are exact `real`s.
- A queryset is a sequence of records in table order.
- Some calls stand for work the model cannot see, and are passed in as function parameters:
  - `inBox`: the bounding-box test of the search view;
  - `checkPassword` and `hashOf`: password checking and hashing;
  - `issue`: issuing a JWT pair;
  - `resetLink`: building a reset link;
  - `delivered`: whether sending a mail succeeds.

Where the system's documented behaviour and its code disagree, the model follows the code:

- The documented behaviour describes a failed refresh as surfacing the original error. The code
  rejects with the refresh error, and so does the model.
- The documented behaviour says that a 401 from the refresh endpoint purges the session and
  redirects to `/login`, and that every call terminates. The refresh POST goes through the same
  intercepted axios instance and is not exempt from refreshing, so as written its own 401
  starts another refresh. The model keeps that behaviour (`Guard.AsWritten`), and Finding 1
  gives the guarded version.

## Model

The functions that transcribe a source function carry no contract of their own. Each one is the
reference definition that the lemmas and methods of the table below are proved about:

- `AuthSession.WithToken` (frontend/src/features/authSlice.js:9-14): `BearerExactlyWhenStored`, `FirstTransmission`.
- `AuthSession.ShouldRefresh` (frontend/src/features/authSlice.js:28-32): `RefreshIssuedIffEligible`, `GuardedRefreshIsNeverRefreshed`, `AsWrittenRefreshUnauthorizedIsRefreshed`, `RefreshUrlIsNotExempt`, `ExemptRequestIsNeverRefreshed`.
- `AuthSession.CompleteLogin`, `AuthSession.LoginCall` (frontend/src/features/authSlice.js:64-82): `LoginStoresBothTokens`, `LoginFailureStoresNothing`, `LoginNeverRefreshes`, `Session.Login`, `Session.FinishLogin`.
- `AuthSession.RegisterCall` (frontend/src/features/authSlice.js:84-97): `RegisterClearsSession`, `Session.Register`.
- `AuthState.Next`, `AuthState.Run` (frontend/src/features/authSlice.js:145-219): `PendingClearsError`, `SettledStopsLoading`, `LoginRejectedUnauthenticates`, `CurrentUserRejectedKeepsError`, `LogoutResets`, `ClearErrorOnlyError`, `AuthenticatedOnlyByFulfilment`, `UserChangesOnlyByPayloadOrClear`, `NeverAuthenticatedWithoutFulfilment`, `AuthStore.Dispatch`, `AuthStore.DispatchAll`.
- `ProvidersSlice.BackendParams` (frontend/src/features/providersSlice.js:10-18): `BackendKeysDistinct`, `ParamRenaming`, `FetchParams`, `SentExactlyNonEmpty`.
- `ProvidersSlice.Cleaned` (frontend/src/features/providersSlice.js:21-25): `RemoveEmptyParams`, `CleanedConcat`, `CleanedMembers`, `CleanedIsSubsequence`.
- `ProvidersSlice.Next` (frontend/src/features/providersSlice.js:86-153): `CreateAppends`, `UpdateReplacesFirstMatch`, `UpdateThrowsOnMissingValue`, `OnlyUpdateThrows`, `UpdateCurrentOnlyOnMatch`, `UpdateWithoutIdSetsMissingCurrent`, `ListFulfilledTakesPage`, `LifecycleFlags`, `ProvidersStore.Dispatch`.
- `SearchSlice.Next` (frontend/src/features/searchSlice.js:39-76): `SetFiltersMerges`, `SetFiltersIdempotent`, `ClearFiltersRestores`, `ClearErrorOnlyError`, `FulfilledTakesPage`, `LifecycleFlags`, `SearchStore.Dispatch`.
- `BookingTabs.FilterBookings` (frontend/src/components/BookingManagement.js:52-72): `UpcomingExactly`, `PastExactly`, `PendingAndDefault`, `TabsPreserveOrder`, `KnownStatusInExactlyOne`, `UpcomingAndPastPartition`, `UnknownFutureStatusOnNeitherTab`.
- `BookingTabs.StatusBadge` (frontend/src/components/BookingManagement.js:24-33): `StatusBadgeTable`.
- `CategoriesPage.Bucket`, `CategoriesPage.Groupable` (frontend/src/pages/Categories.js:16-35): `GroupProvidersByCategory`, `BucketStep`, `GroupStep`, `GroupableStep`, `EachProviderInOneBucket`, `BucketsCoverAll`.
- `CategoriesPage.Tabs` (frontend/src/pages/Categories.js:38-44): `TabCounts`, `AllIsNoBucket`.
- `CategoriesPage.FilteredProviders` (frontend/src/pages/Categories.js:46-49): `FilteredProvidersCases`.
- `CategoriesPage.CategoryGradient` (frontend/src/pages/Categories.js:51-60): `GradientFallback`.
- `SearchPage.InitialFilters` (frontend/src/pages/Search.js:11-19): `InitialFiltersFromUrl`, `ClearIsFreshPage`.
- `SearchPage.UrlParams` (frontend/src/pages/Search.js:31-34): `UrlParamsExactlyTruthy`, `UrlParamsConcat`, `UrlParamsNames`, `UrlParamsStep`, `TextValuesUnchanged`, `HandleFilterChange`.
- `SearchPage.ClearFilters` (frontend/src/pages/Search.js:38-50): `ClearIsFreshPage`.
- `ProviderModels.DurationDisplay` (backend/providers/models.py:98-106): `DurationDisplayShapes`, `DurationDisplayEdges`, `DurationDisplayParsesBack`.
- `ProviderModels.IsValid` (backend/providers/models.py:138-145): `IsValidWindow`.
- `ProviderModels.CalculateTotalAsWritten` (backend/providers/models.py:185-202): `PerHourAlwaysFails`, `PerHourCounterexample`, `CorrectedAgreesElsewhere`.
- `ProviderModels.CalculateTotal` (backend/providers/models.py:185-202): `CalculateTotalCases`, `CalculateTotalNonNegative`, `CorrectedAgreesElsewhere`.
- `ProviderSerializers.ValidateDuration` (backend/providers/serializers.py:46-57): `ValidateDurationAccepts`, `ValidateDurationMessages`, `NegativeDurationAccepted`, `AcceptedDurationDisplays`.
- `ProviderSerializers.ProviderRejection` (backend/providers/serializers.py:81-94): `ProviderValidationCases`, `ProfileData.ValidateProvider`.
- `ProviderSerializers.ValidatePricing` (backend/providers/serializers.py:127-138): `ValidatePricingAccepts`, `PricingSessionEdges`.
- `ProviderSerializers.ProfileDefaults` (backend/providers/serializers.py:195-210): `ProfileDefaultsKeys`, `ProfileDefaultsSpec`, `ProfileDefaultsIdempotent`, `ProfileData.ValidateProviderCreate`.
- `ProviderSerializers.CreateBookingAsWritten`, `ProviderSerializers.CreateBooking` (backend/providers/serializers.py:228-233): `CreateBookingSetsTotal`, `CreateDefaultBooking`.
- `ProviderSerializers.ValidateBookingCreate` (backend/providers/serializers.py:244-257): `ValidateBookingCreateAccepts`, `BookingDateBoundary`.
- `ProviderViews.ProviderOrReadOnly` (backend/providers/views.py:29-35): `ProviderOrReadOnlyCases`.
- `ProviderViews.ListCreateQueryset` (backend/providers/views.py:52-77): `ListCreateQuerysetSpec`.
- `ProviderViews.DetailQueryset` (backend/providers/views.py:91-97): `DetailVisibility`, `FindVisibleSpec`, `ProviderTable.Retrieve`.
- `ProviderViews.SearchResult` (backend/providers/views.py:186-283): `SearchMembership`, `SearchNarrows`, `SearchWithoutParams`, `SearchOrder`, `TextQueryMatches`, `SearchQueryset`.
- `ProviderViews.IsProviderUser`, `ProviderViews.OwnerObjectPermission` (backend/providers/views.py:291-301): `ProviderOwnerCases`.
- `ProviderViews.BookingQueryset` (backend/providers/views.py:444-454): `BookingVisibility`.
- `ProviderViews.ProfileSaveStatus` (backend/providers/views.py:131-138): `ProfileSaveStatusTable`.
- `EduactivityViews.ListResult` (backend/eduactivity/views.py:26-79): `ListMembership`, `ListOrder`, `MinRatingIgnored`, `ListWithoutParams`, `AgreesWithSearch`, `ListIsSearchWithoutLat`, `ProviderListQueryset`.
- `UserViews.Login` (backend/users/views.py:41-89): `LoginNeedsBothFields`, `LoginFailuresAlike`, `LoginDecision`.
- `UserViews.PasswordReset` (backend/users/views.py:129-155): `PasswordResetUniform`, `PasswordResetFailureReveals`.
- `UserViews.IsAdminUser` (backend/users/views.py:191-196): `IsAdminUserCases`.
- `Categories.IsSubcategory` (backend/categories/models.py:28-30), `Categories.FullPath` (backend/categories/models.py:32-36), `Categories.Display` (backend/categories/models.py:23-26): `FullPathCases`, `FullPathIgnoresGrandparent`, `FullPathEndsWithName`, `DisplayIsFullPath`.
- `Subscriptions.IsActive` (backend/subscriptions/models.py:39-41): `IsActiveCases`, `ActiveEarlier`.

| member | source | states |
|---|---|---|
| AuthSession.Purge | frontend/src/features/authSlice.js:49-55 | exactly the two token keys are removed; the network and the transmission log are untouched |
| AuthSession.Axios | frontend/src/features/authSlice.js:8-60 | one axios call never consumes more answers than the script holds |
| AuthSession.OnRejected | frontend/src/features/authSlice.js:24-59 | the error handler never consumes more answers than the script holds |
| AuthSession.AxiosEvolves | frontend/src/features/authSlice.js:22-60 | any call consumes a prefix of the scripted answers, logs exactly one transmission per consumed answer, never rotates or invents the refresh token, and only ever redirects to `/login` |
| AuthSession.OnRejectedEvolves | frontend/src/features/authSlice.js:24-60 | the same for the response interceptor's error handler, including the nested refresh and replay |
| AuthSession.RejectPayload | frontend/src/features/authSlice.js:79 | a rejected thunk carries the truthy response body, and the fallback message when there is no response or its body is falsy |
| AuthSession.Session.constructor | frontend/src/features/authSlice.js:4-10 | a fresh session holds the given token store and network script, with nothing sent and no redirect |
| AuthSession.Session.Send | frontend/src/features/authSlice.js:8-60 | the in-place client ends in the state, and with the outcome, of the `Axios` function |
| AuthSession.Session.HandleRejection | frontend/src/features/authSlice.js:24-60 | the in-place error handler agrees with `OnRejected` |
| AuthSession.Session.ExpireSession | frontend/src/features/authSlice.js:49-54 | the in-place purge agrees with `Purge` |
| AuthSession.Session.Login | frontend/src/features/authSlice.js:64-82 | the in-place `login` thunk agrees with `LoginCall` |
| AuthSession.Session.FinishLogin | frontend/src/features/authSlice.js:71-80 | storing the tokens of a login answer agrees with `CompleteLogin` and touches nothing else |
| AuthSession.Session.Register | frontend/src/features/authSlice.js:84-97 | the in-place `register` thunk agrees with `RegisterCall` |
| AuthSession.Session.Call | frontend/src/features/authSlice.js:99-133 | the other thunks are one axios call whose data or rejection payload becomes the thunk result |
| AuthSession.Session.ClearTokens | frontend/src/features/authSlice.js:145-147 | `logout` removes both tokens and changes nothing else |
| AuthSessionProperties.BearerExactlyWhenStored | frontend/src/features/authSlice.js:9-14 | with an access token stored, the request gains exactly one header, Authorization, set to `Bearer ` and the token, and keeps every other header; without one it is untouched; nothing but the headers changes |
| AuthSessionProperties.FirstTransmission | frontend/src/features/authSlice.js:9-14 | the first request on the wire is the original with the stored token attached |
| AuthSessionProperties.RejectedUnchangedUnlessEligible | frontend/src/features/authSlice.js:28-32 | a failure that is not an eligible 401 is rejected with the original error after one transmission, and the token store is unchanged |
| AuthSessionProperties.RefreshIssuedIffEligible | frontend/src/features/authSlice.js:28-39 | the second transmission is a POST of the stored refresh token to the refresh URL if and only if the refresh condition holds |
| AuthSessionProperties.RefreshSuccessReplaysOnce | frontend/src/features/authSlice.js:33-46 | after a successful refresh, the new access token is stored and the refresh token kept, the replay is the original marked `_retry` with the new bearer, and its answer is returned as it is, never refreshed again |
| AuthSessionProperties.RefreshFailurePurges | frontend/src/features/authSlice.js:47-55 | a rejected refresh that is not itself refreshed removes both tokens, redirects to `/login` unless on `/register`, and rejects with the refresh error |
| AuthSessionProperties.RefreshUrlIsNotExempt | frontend/src/features/authSlice.js:31-32 | the refresh URL contains neither `/login` nor `/register` |
| AuthSessionProperties.GuardedRefreshIsNeverRefreshed | frontend/src/features/authSlice.js:28-37 | with the corrected guard, no rejection of the refresh POST meets the refresh condition |
| AuthSessionProperties.AsWrittenRefreshUnauthorizedIsRefreshed | frontend/src/features/authSlice.js:28-37 | as written, a 401 from the refresh POST meets the refresh condition again |
| AuthSessionProperties.AsWrittenUnauthorizedNeverSettles | frontend/src/features/authSlice.js:22-60 | as written, when every answer is a 401, an eligible call consumes the whole script without settling and never purges the tokens |
| AuthSessionProperties.ExemptRequestIsNeverRefreshed | frontend/src/features/authSlice.js:31-32 | a request to a login or registration URL is rejected unchanged after one transmission |
| AuthSessionProperties.LoginNeverRefreshes | frontend/src/features/authSlice.js:28-69 | the login POST is sent at most once and a failing login leaves the tokens untouched |
| AuthSessionProperties.RegisterClearsSession | frontend/src/features/authSlice.js:84-97 | `register` removes both tokens first, so its POST carries no Authorization header, is never refreshed, and leaves no token behind |
| AuthSessionProperties.LoginStoresBothTokens | frontend/src/features/authSlice.js:71-77 | a login answer with string tokens stores both and fulfils with the user |
| AuthSessionProperties.LoginFailureStoresNothing | frontend/src/features/authSlice.js:78-80 | a failed login stores nothing and rejects with the error body, or `Login failed` without one |
| AuthScenarios.ProfileUrlIsNotExempt | frontend/src/features/authSlice.js:31-32 | the profile endpoint is eligible for refreshing |
| AuthScenarios.FirstUnauthorizedIsRefreshed | frontend/src/features/authSlice.js:28-37 | with tokens A1/R1 stored, a 401 on the profile endpoint leads to a refresh POST carrying R1 |
| AuthScenarios.ScenarioRefreshSucceeds | frontend/src/features/authSlice.js:22-60 | a 401, a refresh answer with A2, then the resource: the call resolves with the resource, stores A2 with R1 unchanged, and does not redirect |
| AuthScenarios.ScenarioRefreshRejectedGuarded | frontend/src/features/authSlice.js:22-60 | with the guard, a 401 on the refresh POST empties the store, redirects to `/login` and rejects with that 401 |
| AuthScenarios.ExpiredSessionPurgedIsEmpty | frontend/src/features/authSlice.js:49-55 | purging a store that holds only the two tokens leaves it empty |
| AuthScenarios.ScenarioRefreshRejectedAsWritten | frontend/src/features/authSlice.js:22-60 | as written, the same two 401s leave the call unsettled, with both tokens still stored and no redirect |
| AuthState.AuthStore.constructor | frontend/src/features/authSlice.js:138-143 | the store starts with the slice's initial state |
| AuthState.AuthStore.Dispatch | frontend/src/features/authSlice.js:152-219 | the in-place reducer ends in the record `Next` gives |
| AuthState.AuthStore.DispatchLogout | frontend/src/features/authSlice.js:145-151 | `logout` removes both tokens from the session and resets the user fields |
| AuthState.AuthStore.DispatchAll | frontend/src/features/authSlice.js:145-219 | dispatching a sequence ends in the record `Run` gives; the session loses both tokens exactly when the sequence holds a `logout`, and its network, log and redirects are untouched |
| AuthState.PendingClearsError | frontend/src/features/authSlice.js:158-186 | every `pending` except `getCurrentUser`'s sets `loading` and clears `error`, and changes nothing else |
| AuthState.SettledStopsLoading | frontend/src/features/authSlice.js:162-219 | every `fulfilled` or `rejected` ends `loading` |
| AuthState.LoginRejectedUnauthenticates | frontend/src/features/authSlice.js:167-171 | a rejected login leaves the user unauthenticated, with the payload as the error |
| AuthState.CurrentUserRejectedKeepsError | frontend/src/features/authSlice.js:192-196 | a rejected `getCurrentUser` clears the user and authentication and keeps the previous error |
| AuthState.LogoutResets | frontend/src/features/authSlice.js:145-151 | `logout` clears the user, authentication and error, and keeps `loading` |
| AuthState.ClearErrorOnlyError | frontend/src/features/authSlice.js:152-154 | `clearError` changes only the error, and applying it twice is applying it once |
| AuthState.AuthenticatedOnlyByFulfilment | frontend/src/features/authSlice.js:162-196 | only a fulfilled `login` or `getCurrentUser` turns an unauthenticated record authenticated |
| AuthState.UserChangesOnlyByPayloadOrClear | frontend/src/features/authSlice.js:162-204 | the user changes only to a fulfilled payload of `login`, `getCurrentUser` or `updateProfile`, or to null |
| AuthState.NeverAuthenticatedWithoutFulfilment | frontend/src/features/authSlice.js:156-219 | from the initial state, a run with no fulfilled login or current-user fetch stays unauthenticated |
| ProvidersSlice.RemoveEmptyParams | frontend/src/features/providersSlice.js:21-25 | the cleanup loop leaves exactly the properties whose value is not `''`, `undefined` or `null`, in order |
| ProvidersSlice.CleanedConcat | frontend/src/features/providersSlice.js:21-25 | the cleanup distributes over concatenation |
| ProvidersSlice.CleanedMembers | frontend/src/features/providersSlice.js:21-25 | a property survives the cleanup if and only if its value is not empty |
| ProvidersSlice.CleanedIsSubsequence | frontend/src/features/providersSlice.js:21-25 | the cleanup keeps the order of what it keeps |
| ProvidersSlice.LookupAt | frontend/src/features/providersSlice.js:21-25 | in an object with distinct keys, looking up a property's key gives its value |
| ProvidersSlice.BackendKeysDistinct | frontend/src/features/providersSlice.js:10-18 | the query object built from the filters has seven distinct keys |
| ProvidersSlice.FetchParams | frontend/src/features/providersSlice.js:10-25 | the query sent is the cleaned object of backend parameters |
| ProvidersSlice.ParamRenaming | frontend/src/features/providersSlice.js:10-18 | `maxPrice` is sent as `max_price`, the other six keys keep their names, and nothing else of the filters is read |
| ProvidersSlice.SentExactlyNonEmpty | frontend/src/features/providersSlice.js:10-25 | a parameter is sent if and only if its value is not empty, so 0 and false are sent |
| ProvidersSlice.Locate | frontend/src/features/providersSlice.js:142 | a found index lies within the list |
| ProvidersSlice.LocateSpec | frontend/src/features/providersSlice.js:142 | the search finds the first element with the id; it reports no match exactly when every element has an `id` and none equals it; it throws exactly when it reaches an element without an `id` (`p.id` on `null` or `undefined`) before any match |
| ProvidersSlice.FindIndex | frontend/src/features/providersSlice.js:142 | the `findIndex` loop returns the first element with the id, or -1 when no element has it, and reports a throw at the first element it cannot read `id` of |
| ProvidersSlice.ProvidersStore.constructor | frontend/src/features/providersSlice.js:74-84 | the store starts with the slice's initial state |
| ProvidersSlice.ProvidersStore.Dispatch | frontend/src/features/providersSlice.js:86-153 | the in-place reducer, with `push` and indexed assignment, ends in the record `Next` gives, and reports a throw exactly when `Throws` holds, in which case the record is unchanged |
| ProvidersSlice.CreateAppends | frontend/src/features/providersSlice.js:128-131 | a created provider is appended, and every existing element stays in place |
| ProvidersSlice.UpdateReplacesFirstMatch | frontend/src/features/providersSlice.js:140-145 | an update with a readable payload replaces exactly the first element with the payload's id, and no element when none has it |
| ProvidersSlice.UpdateThrowsOnMissingValue | frontend/src/features/providersSlice.js:140-148 | a `null` or `undefined` payload, or an element without an `id` reached before a match, makes the reducer throw, and the record is unchanged |
| ProvidersSlice.OnlyUpdateThrows | frontend/src/features/providersSlice.js:86-153 | only a fulfilled update can throw, a throw leaves the record unchanged, and an update that does not throw ends loading |
| ProvidersSlice.UpdateCurrentOnlyOnMatch | frontend/src/features/providersSlice.js:146-148 | when the update does not throw, the current provider is replaced if and only if its id equals the payload's |
| ProvidersSlice.UpdateWithoutIdSetsMissingCurrent | frontend/src/features/providersSlice.js:146-148 | with no current provider and a readable list, an update whose payload lacks an id becomes the current provider |
| ProvidersSlice.ListFulfilledTakesPage | frontend/src/features/providersSlice.js:99-107 | a fetched page replaces the list and the whole pagination triple |
| ProvidersSlice.LifecycleFlags | frontend/src/features/providersSlice.js:95-111 | `pending` starts loading with no error; `rejected` stops loading with the payload as the error |
| SearchSlice.SearchStore.constructor | frontend/src/features/searchSlice.js:20-38 | the store starts with the initial filters, no results and no error |
| SearchSlice.SearchStore.Dispatch | frontend/src/features/searchSlice.js:39-76 | the in-place reducer ends in the record `Next` gives |
| SearchSlice.SetFiltersMerges | frontend/src/features/searchSlice.js:40-42 | `setFilters` is a shallow merge: payload keys take the payload's values, other filters keep theirs, no other key appears, and nothing else changes |
| SearchSlice.SetFiltersIdempotent | frontend/src/features/searchSlice.js:40-42 | merging an empty payload changes nothing, and merging a payload twice is merging it once |
| SearchSlice.ClearFiltersRestores | frontend/src/features/searchSlice.js:43-53 | `clearFilters` restores the initial filters whatever came before, and is idempotent |
| SearchSlice.InitialFilterValues | frontend/src/features/searchSlice.js:24-32 | the initial filters are exactly the seven listed entries with their defaults |
| SearchSlice.ClearErrorOnlyError | frontend/src/features/searchSlice.js:54-56 | `clearError` sets the error to null and changes nothing else |
| SearchSlice.FulfilledTakesPage | frontend/src/features/searchSlice.js:64-72 | a fulfilled search takes the results and the whole pagination triple |
| SearchSlice.LifecycleFlags | frontend/src/features/searchSlice.js:60-76 | `pending` starts loading with no error; `rejected` stops loading with the payload as the error |
| BookingTabs.UpcomingExactly | frontend/src/components/BookingManagement.js:57-61 | the upcoming tab holds exactly the bookings from today on that are pending or confirmed |
| BookingTabs.PastExactly | frontend/src/components/BookingManagement.js:62-66 | the past tab holds exactly the bookings before today, or completed, cancelled or no-show |
| BookingTabs.PendingAndDefault | frontend/src/components/BookingManagement.js:67-70 | the pending tab ignores the date, and any other tab shows every booking |
| BookingTabs.TabsPreserveOrder | frontend/src/components/BookingManagement.js:52-72 | every tab lists a subsequence of the bookings, in their order |
| BookingTabs.KnownStatusInExactlyOne | frontend/src/components/BookingManagement.js:57-66 | a booking with one of the five statuses is on exactly one of the upcoming and past tabs |
| BookingTabs.UpcomingAndPastPartition | frontend/src/components/BookingManagement.js:57-66 | when every status is known, the two tabs together are a permutation of the list |
| BookingTabs.UnknownFutureStatusOnNeitherTab | frontend/src/components/BookingManagement.js:57-66 | a booking from today on with any other status is on neither tab |
| BookingTabs.StatusBadgeTable | frontend/src/components/BookingManagement.js:24-33 | the five statuses get their own classes, and every other status is grey |
| CategoriesPage.CategoryKey | frontend/src/pages/Categories.js:26 | a grouping key is never empty: an empty lower-cased category falls back to `other` |
| CategoriesPage.BucketStep | frontend/src/pages/Categories.js:25-32 | one more provider extends exactly its own bucket, at the end |
| CategoriesPage.GroupStep | frontend/src/pages/Categories.js:25-32 | pushing one provider keeps the grouping equal to the buckets of the prefix |
| CategoriesPage.GroupableStep | frontend/src/pages/Categories.js:25-32 | a list that does not throw has a prefix that does not throw |
| CategoriesPage.GroupProvidersByCategory | frontend/src/pages/Categories.js:16-35 | the grouping loop throws exactly when some provider makes it throw, and otherwise returns the five buckets of the list |
| CategoriesPage.EachProviderInOneBucket | frontend/src/pages/Categories.js:25-32 | each provider is in its own bucket and in no other, and each bucket keeps the list order |
| CategoriesPage.BucketIsKnown | frontend/src/pages/Categories.js:27-31 | every provider lands in one of the five buckets |
| CategoriesPage.BucketChoice | frontend/src/pages/Categories.js:26-31 | matching is on the lower-cased category, and unknown, missing or empty categories go to `other` |
| CategoriesPage.BucketsCoverAll | frontend/src/pages/Categories.js:16-35 | the bucket sizes add up to the number of providers |
| CategoriesPage.TabCounts | frontend/src/pages/Categories.js:38-44 | `all` counts every provider, each named tab its bucket, and the named tabs miss exactly the `other` providers |
| CategoriesPage.FilteredProvidersCases | frontend/src/pages/Categories.js:46-49 | the shown list is everything for `all`, a bucket for its key, and nothing otherwise |
| CategoriesPage.AllIsNoBucket | frontend/src/pages/Categories.js:38-39 | `all` names no bucket |
| CategoriesPage.GradientFallback | frontend/src/pages/Categories.js:51-60 | the four named categories have their own gradients, and every other key gets `other`'s |
| SearchPage.HandleFilterChange | frontend/src/pages/Search.js:26-36 | the new record is the old one with the key set, and the URL query holds its truthy entries |
| SearchPage.SetParamAppends | frontend/src/pages/Search.js:33 | setting a name the query does not hold appends it |
| SearchPage.UrlParamsConcat | frontend/src/pages/Search.js:31-34 | the written query distributes over concatenation |
| SearchPage.UrlParamsNames | frontend/src/pages/Search.js:31-34 | every name in the written query is a key of the record |
| SearchPage.UrlParamsStep | frontend/src/pages/Search.js:31-34 | one loop step appends the next truthy entry |
| SearchPage.SetEntryKeys | frontend/src/pages/Search.js:27 | the spread update keeps the keys distinct |
| SearchPage.SetEntryLookup | frontend/src/pages/Search.js:27 | the changed key takes the new value, and every other key keeps its own |
| SearchPage.SetEntryInPlace | frontend/src/pages/Search.js:27 | an existing key keeps its position, and no key is added |
| SearchPage.UrlParamsExactlyTruthy | frontend/src/pages/Search.js:31-35 | a pair is written if and only if it is a truthy entry of the record, rendered as text |
| SearchPage.TextValuesUnchanged | frontend/src/pages/Search.js:31-35 | a non-empty text filter is written unchanged, and an empty one is left out |
| SearchPage.InitialFiltersFromUrl | frontend/src/pages/Search.js:11-19 | each initial filter is the URL's non-empty value under its name, or its default |
| SearchPage.ClearIsFreshPage | frontend/src/pages/Search.js:38-50 | the reset record equals the record of a page opened with no query, and the query written is empty |
| ProviderModels.DurationDisplayShapes | backend/providers/models.py:98-106 | the display is `<h> hour[s] <m> minutes`, `<h> hour[s]` or `<m> minutes`, by which parts are non-zero |
| ProviderModels.DurationDisplayEdges | backend/providers/models.py:101-106 | zero hours always reads in minutes, even for zero or one minute, and one hour is singular |
| ProviderModels.DurationDisplayParsesBack | backend/providers/models.py:98-106 | for durations that are not negative, the display string determines the duration |
| ProviderModels.IsValidWindow | backend/providers/models.py:138-145 | a price is valid exactly when it is active and today lies within its window, both ends included and a missing end unbounded |
| ProviderModels.PerHourAlwaysFails | backend/providers/models.py:192-194 | as written, every hourly price makes the total raise |
| ProviderModels.PerHourCounterexample | backend/providers/models.py:192-194 | one hour at 50.0 per hour raises instead of totalling 50.0 |
| ProviderModels.CorrectedAgreesElsewhere | backend/providers/models.py:185-202 | outside `per_hour` the corrected total is the written one |
| ProviderModels.CalculateTotalCases | backend/providers/models.py:185-202 | the total is nothing without a price; the price for a session, fixed price or package; price times participants; for an hourly rate, the price times the duration in hours, for every duration; zero otherwise |
| ProviderModels.CalculateTotalNonNegative | backend/providers/models.py:185-202 | with a price, participants and a duration that are not negative, the total is not negative |
| ProviderModels.NewBooking | backend/providers/models.py:163-170 | a new booking is pending and unpaid, with the model's field defaults |
| ProviderSerializers.CreateDefaultBooking | backend/providers/serializers.py:228-233 | creating a booking with the field defaults keeps it pending and unpaid and sets its total: the price for one session, one participant or one hour, nothing without a price; as written the one-hour booking at an hourly rate fails |
| ProviderSerializers.ValidateDurationAccepts | backend/providers/serializers.py:46-57 | a duration is accepted unchanged exactly when it is not all zero (absent counts as zero) and has fewer than 60 minutes |
| ProviderSerializers.ValidateDurationMessages | backend/providers/serializers.py:48-55 | the empty duration is reported before the minute bound, with the source's messages |
| ProviderSerializers.NegativeDurationAccepted | backend/providers/serializers.py:51 | only zero is excluded: a negative duration is accepted |
| ProviderSerializers.AcceptedDurationDisplays | backend/providers/serializers.py:46-57 | an accepted duration that is not negative reads back from its display string |
| ProviderSerializers.ValidatePricingAccepts | backend/providers/serializers.py:127-138 | a pricing is accepted unchanged exactly when its price is positive and, for a non-zero maximum, the minimum does not exceed it |
| ProviderSerializers.PricingSessionEdges | backend/providers/serializers.py:132-136 | a zero maximum switches the session check off, and the default minimum is 1 |
| ProviderSerializers.ProfileData.constructor | backend/providers/serializers.py:195 | the validated data starts as the request's attributes |
| ProviderSerializers.ProfileData.ValidateProvider | backend/providers/serializers.py:81-94 | the in-place hook rejects as `ProviderRejection` says, and on acceptance fills only an empty name |
| ProviderSerializers.ProfileData.FillDefault | backend/providers/serializers.py:198-208 | a missing or empty key takes the default, and nothing else changes |
| ProviderSerializers.ProfileData.ValidateProviderCreate | backend/providers/serializers.py:195-210 | the in-place hook leaves the attributes that `ProfileDefaults` gives |
| ProviderSerializers.FilledSpec | backend/providers/serializers.py:198-208 | filling leaves a non-empty value alone, makes an empty one non-empty, and touches nothing else |
| ProviderSerializers.ProfileDefaultsKeys | backend/providers/serializers.py:195-210 | after completion the keys are the supplied ones plus the four profile keys |
| ProviderSerializers.ProfileDefaultsSpec | backend/providers/serializers.py:195-210 | the four profile keys are present and non-empty, supplied non-empty values are kept, missing ones take their defaults, and nothing else changes |
| ProviderSerializers.ProfileDefaultsIdempotent | backend/providers/serializers.py:195-210 | completing completed data changes nothing |
| ProviderSerializers.ProviderValidationCases | backend/providers/serializers.py:81-94 | accepted exactly for a provider user who is updating, or creating without a profile |
| ProviderSerializers.ValidateBookingCreateAccepts | backend/providers/serializers.py:244-257 | a booking is accepted unchanged exactly when its pricing belongs to its service and its date is today or later |
| ProviderSerializers.BookingDateBoundary | backend/providers/serializers.py:253-255 | today is accepted and yesterday is rejected |
| ProviderSerializers.CreateBookingSetsTotal | backend/providers/serializers.py:228-233 | creating sets the total and nothing else; as written, that fails for every hourly price |
| ProviderViews.ProviderOrReadOnlyCases | backend/providers/views.py:29-35 | reads are open to everyone, and a write needs the signed-in owner |
| ProviderViews.ProviderOwnerCases | backend/providers/views.py:291-301 | anonymous and non-provider users fail the view check; the object check uses the object's provider, then its service's provider, and denies otherwise |
| ProviderViews.ListCreateQuerysetSpec | backend/providers/views.py:52-77 | the list is exactly the approved providers in table order, whatever the query parameters |
| ProviderViews.DetailVisibility | backend/providers/views.py:91-97 | provider users see approved profiles and their own; everyone else sees approved ones only |
| ProviderViews.FindVisible | backend/providers/views.py:99-100 | a found index lies within the part of the table searched |
| ProviderViews.FindVisibleSpec | backend/providers/views.py:99-100 | the lookup finds the first visible record with the id, and `None` means there is none |
| ProviderViews.BumpRaisesTotal | backend/providers/views.py:99-103 | raising one counter raises the total of views by exactly one |
| ProviderViews.AppendRaisesTotal | backend/providers/views.py:79-83 | appending a record adds its views to the total |
| ProviderViews.ProviderTable.constructor | backend/providers/views.py:52-53 | the table starts empty |
| ProviderViews.ProviderTable.PerformCreate | backend/providers/views.py:79-83 | a record whose id and user are not yet in the table is appended with its counter raised by one, ids and users stay distinct, and the total of views grows by its views plus one |
| ProviderViews.ProviderTable.Retrieve | backend/providers/views.py:99-105 | the first visible record with the id has its counter raised by one, in the table and in the answer, with nothing else changed; `None` is the 404 |
| ProviderViews.SearchQueryset | backend/providers/views.py:186-283 | the search view's filter chain and sort give the admitted providers, ordered |
| ProviderViews.OrderQueryset | backend/providers/views.py:265-283 | the sort step is `Ordered` |
| ProviderViews.Narrow | backend/providers/views.py:187-219 | an applied filter, or a skipped one that would keep everything, moves the chain one step |
| ProviderViews.AfterBoxIsAdmitted | backend/providers/views.py:187-263 | the chained predicate equals the condition stated per parameter |
| ProviderViews.AfterLocationReads | backend/providers/views.py:190-219 | the filters up to the location step read only `q`, `category`, `subcategory` and `location` |
| ProviderViews.OrderedIsPermutation | backend/providers/views.py:265-283 | every ordering is a permutation of its input |
| ProviderViews.SearchMembership | backend/providers/views.py:186-263 | a provider is in the result exactly when it is in the table, approved, and matches every given filter |
| ProviderViews.SearchNarrows | backend/providers/views.py:201-263 | leaving out a parameter can only let more providers in |
| ProviderViews.SearchWithoutParams | backend/providers/views.py:186-283 | with no parameters the search is every approved provider, in table order |
| ProviderViews.SearchOrder | backend/providers/views.py:265-283 | `newest` sorts by creation date, `rating` and `popularity` by views, and any other value keeps the table order |
| ProviderViews.TextQueryMatches | backend/providers/views.py:202-207 | a text query keeps exactly the approved providers matching it in name, description or address |
| ProviderViews.ProfileOf | backend/providers/views.py:448 | the profile found belongs to the user, and `None` means the user has none |
| ProviderViews.ProfileOfUnique | backend/providers/models.py:15 | with one profile per user, `provider_profile` of a profile's user is that profile |
| ProviderViews.BookingVisibility | backend/providers/views.py:444-454 | a provider user sees the bookings of their own profile, and none without a profile; anyone else sees exactly their own bookings |
| ProviderViews.ProfileSaveStatusTable | backend/providers/views.py:131-138 | invalid data gets a 400; a valid save gets 201 for a new profile and 200 for an existing one |
| EduactivityViews.ProviderListQueryset | backend/eduactivity/views.py:26-79 | the list view's chain and sort give `ListResult` |
| EduactivityViews.SortQueryset | backend/eduactivity/views.py:69-77 | the sort step is `Ordered` |
| EduactivityViews.AfterBoxWithoutCoordinates | backend/eduactivity/views.py:26-56 | without both coordinates, the bounding-box step keeps everything |
| EduactivityViews.AgreesWithSearch | backend/eduactivity/views.py:26-79 | the list and the provider search agree on every request without both `lat` and `lng` |
| EduactivityViews.ListIsSearchWithoutLat | backend/eduactivity/views.py:26-79 | the list is the search of the same request with `lat` removed |
| EduactivityViews.ListMembership | backend/eduactivity/views.py:27-56 | the list admits exactly the approved providers that match every given text, category, subcategory and location filter |
| EduactivityViews.ListOrder | backend/eduactivity/views.py:69-77 | `newest` sorts by creation date, `rating` and `popularity` by views, and any other value keeps the table order |
| EduactivityViews.MinRatingIgnored | backend/eduactivity/views.py:59-67 | `min_rating` never changes the result, whatever its value |
| EduactivityViews.ListWithoutParams | backend/eduactivity/views.py:26-79 | with no parameters the list is every approved provider, in table order |
| UserViews.Register | backend/users/views.py:27-35 | registration answers 201 and issues no tokens |
| UserViews.RegisterIssuesNoTokens | backend/users/views.py:27-35 | the body is the saved user with the registration message |
| UserViews.FindByEmail | backend/users/views.py:53 | a found user has the e-mail, and `None` means no user has it |
| UserViews.LoginNeedsBothFields | backend/users/views.py:45-49 | a missing or empty e-mail or password gets the 400 asking for both |
| UserViews.LoginFailuresAlike | backend/users/views.py:52-89 | an unknown e-mail and a wrong password get the same 401 |
| UserViews.LoginDecision | backend/users/views.py:41-89 | tokens are issued exactly when both fields are given, the account exists, the password checks and the account is active; a disabled account gets the 400 |
| UserViews.Account.constructor | backend/users/views.py:115 | the account holds the user and the stored password hash |
| UserViews.Account.ChangePassword | backend/users/views.py:112-126 | a wrong old password gets a 400 and keeps the hash; otherwise the hash becomes the new password's and the answer is 200 |
| UserViews.Account.VerifyEmail | backend/users/views.py:179-188 | the user is marked verified and nothing else changes |
| UserViews.PasswordResetUniform | backend/users/views.py:129-155 | while sending succeeds, the answer is the same for every address, and a mail goes to the address exactly when it is registered |
| UserViews.PasswordResetFailureReveals | backend/users/views.py:134-155 | a failed send (`fail_silently=False`) is a 500 that only a registered address can get, so the answer then reveals the account; an unknown address always gets the 200 and no mail |
| UserViews.IsAdminUserCases | backend/users/views.py:191-196 | an anonymous user and a user who is not an admin are refused |
| Categories.FullPathCases | backend/categories/models.py:28-36 | a top-level path is the name; a subcategory's is the parent's name, the separator and its name; exactly subcategories are marked |
| Categories.FullPathIgnoresGrandparent | backend/categories/models.py:32-36 | only the immediate parent's name is used |
| Categories.FullPathEndsWithName | backend/categories/models.py:32-36 | a path ends with the category's own name |
| Categories.DisplayIsFullPath | backend/categories/models.py:23-36 | the string form of a category is its full path |
| Subscriptions.IsActiveCases | backend/subscriptions/models.py:39-41 | active exactly when the status is `active` and the end date is today or later |
| Subscriptions.ActiveEarlier | backend/subscriptions/models.py:39-41 | a subscription active today was active on every earlier day |
| Accounts.FullName | backend/providers/serializers.py:92 | the default business name is the first name, a space and the last name |

## Left out

- JavaScript object prototypes are not modelled, so a filter key such as `__proto__` behaves like any other key. Lower-casing covers ASCII letters only, with no Unicode case mapping.
- Django REST Framework's filter backends, the `OrderingFilter` default of `-profile_views` and pagination all run after `get_queryset` and are not modelled. The search and list results are the querysets before them.
- ORDER BY with equal keys has no order the database guarantees. The model sorts stably, by insertion, so ties keep table order.
- The bounding box arithmetic of `ProviderSearchView`, including its float parse of `lat`, `lng` and `radius`, is the `inBox` parameter. Floating point is out of scope.
- The `max_price`, `min_reviews` and `min_rating` branches of the search and list views compute nothing that reaches the queryset, so the model reads those parameters and ignores them. `MinRatingIgnored` states this for the list view.
- ORM `save`, `get_or_create` and database errors are not modelled. A save is the write of the record into a table value.
- The querysets and `perform_create` checks of the service and pricing views, `MyProviderView.get` (with its 403 for non-providers), the image upload views, `password_reset_confirm` and `ProfileView` are out of scope and not modelled.
- `BookingListCreateView`'s POST uses `BookingCreateSerializer`, which computes no total. `CreateBooking` models `BookingSerializer.create`, which does.
- Concurrent requests sharing one refresh are not modelled. Each call runs to completion against a scripted network before the next begins.
- The `print` statements of the views are not modelled; they are logging only.
- Password hashing and checking, JWT issuing, reset links and whether a mail is delivered are parameters of the view functions. Mail content and transport are not modelled.
- `formatDate` and `formatTime` of the booking list are presentation only.
- Field-level serializer validation (types, lengths, required fields) is not modelled. The `validate` hooks see already-typed attributes.
- Dates and datetimes are whole day numbers with no time zones. A booking's `datetime.now()` comparison is day against day.
- `searchProviders`, `fetchProviderDetail` and the other provider thunks are plain GETs and POSTs. Only their lifecycle actions in the reducers are modelled, and the HTTP call of `fetchProviders` is modelled only through the query it builds.
- JavaScript `===` on ids is compared structurally on JSON values. This agrees with `===` for numbers and strings, the only id types the backend produces.
- Python `Decimal` amounts are exact reals, with no rounding or precision context.

## Findings

| source | as written | input that shows it | evidently intended | confidence | as-written member | corrected member |
|---|---|---|---|---|---|---|
| frontend/src/features/authSlice.js:28-37 | the refresh POST goes through the same intercepted axios instance, and its URL is not exempt from the refresh condition, so its own 401 starts another refresh with the same refresh token | tokens A1/R1 stored; the profile request gets a 401, and the refresh POST gets a 401 | the refresh failure purges both tokens, redirects to `/login` and rejects with the refresh error | not executed | AuthSessionProperties.AsWrittenUnauthorizedNeverSettles | AuthScenarios.ScenarioRefreshRejectedGuarded |
| backend/providers/models.py:192-194 | `price * (duration_minutes / 60)` multiplies a `Decimal` by a `float` and raises `TypeError` | a `per_hour` price of 50.0 and a 60-minute booking | the total is the price times the duration in hours, here 50.0 | not executed | ProviderModels.PerHourCounterexample | ProviderModels.CalculateTotalCases |

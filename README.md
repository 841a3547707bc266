# Subscription manager: a verified model of its core

subscmng is an Android app that keeps a list of paid subscriptions. Each one has a service name, an amount, a currency, a monthly or yearly billing cycle, a payment day and an optional expiration date. The app does four things:

- It stores the subscriptions in a Room (SQLite) table.
- It shows the monthly and yearly totals of the active ones.
- It converts amounts typed in US dollars to yen, at a rate fetched over HTTP and cached for one hour.
- Once a day, it posts a notification for each subscription that expires within a week.

This Dafny project models the logic behind those features, sequentially. Each coroutine launch is taken to run to completion before the next call.

| module | file | what it holds |
|---|---|---|
| `Wrappers` | wrappers.dfy | `Option`, `Result` and `Outcome` |
| `Entity` | entity.dfy | `Subscription` and its defaults, `PaymentCycle`, `Currency` |
| `Dao` | dao.dfy | The table as a `map<int, Subscription>`. The SELECT queries are functions of the map. `SubscriptionDao` is a class that owns the rows and the auto-increment counter, with the four writes as methods. |
| `Repository` | repository.dfy | `SubscriptionRepository`, which forwards every call to the DAO and reads a null total as 0.0 |
| `ExchangeRate` | exchange_rate.dfy | The one-slot, one-hour rate cache. `RateStep` is a pure step function; `ExchangeRateService` is the class with the two mutable fields. |
| `AddEdit` | add_edit.dfy | The form state, validation, conversion, the saved record and `AddEditViewModel` |
| `Home` | home.dfy | The totals screen state and `HomeViewModel` |
| `Notification` | notification.dfy | Java's `String.hashCode`, the notification manager and `NotificationWorker` |

Inputs from the world are parameters:

- The clock is `now` or `today`, in milliseconds since the epoch. The worker's calendar step "plus seven days" is its function-valued field `plusSevenDays`, which is only known to move every reading forward.
- The HTTP rate request is `fetch: Option<real>`. It is the JPY rate of a 200 response, or `None` for any other status or any exception.
- A failure of the storage engine is `fault`, or `queryFails` for the worker's query.
- `Double.toString` and `String.toDoubleOrNull` are the function-valued fields `formatAmount` and `parseAmount` of the add/edit view model.

Amounts, rates and sums are `real`.

Some conventions of the model:

- **Generated ids.** `@PrimaryKey(autoGenerate = true)` makes SQLite use AUTOINCREMENT. The model keeps the counter `nextId`, which is one more than the largest id the table has ever held. A record with id 0 gets `nextId`. A record with any other id is stored under that id, and Room's default ABORT strategy makes a clash a `ConstraintViolation`.
- **Row order.** A query with no ORDER BY returns rows in primary-key order, the order of a table scan. `ORDER BY serviceName` uses SQLite's BINARY collation, which orders names by code point, with a proper prefix first.
- **Timestamps.** `@Insert` stores the record as given. A saved record's `createdAt` is the record constructor's `Date()` default, and its `updatedAt` is the `Date()` that `saveSubscription` passes.
- **Updating a missing id.** `@Update` of an id that no row has is a silent no-op.

## Model

| member | source | states |
|---|---|---|
| Entity.NewSubscription | app/src/main/java/com/example/subscmng/data/entity/Subscription.kt:8-21 | A record built with its defaults has id 0 (not yet inserted), currency code "JPY" (the code of `Currency.JPY`), an empty memo, `isActive` true, and both timestamps equal to the construction time. `paymentDay` and the nullable expiration date are taken as given, with no range check. |
| Entity.FindByCode | app/src/main/java/com/example/subscmng/data/entity/Currency.kt:3-6 | Looking a currency up by code finds currency `c` exactly when `c`'s code is the argument, so at most one currency matches. It finds none exactly for codes other than "JPY" and "USD". |
| Dao.SortByName | app/src/main/java/com/example/subscmng/data/dao/SubscriptionDao.kt:12 | The result is sorted by service name in code-point order, and is a permutation of its input: the same multiset. |
| Dao.GetAllActiveSubscriptions | app/src/main/java/com/example/subscmng/data/dao/SubscriptionDao.kt:12-13 | A row is listed if and only if it is in the table and active. The list is sorted by name, every earlier row's name sorting no later than every later row's, and no row appears twice. |
| Dao.GetSubscriptionById | app/src/main/java/com/example/subscmng/data/dao/SubscriptionDao.kt:15-16 | The result is Some exactly when the id is a key; `isActive` plays no part. The row found carries that id. |
| Dao.GetSubscriptionsByCycle | app/src/main/java/com/example/subscmng/data/dao/SubscriptionDao.kt:18-19 | A row is listed if and only if it is active and has that cycle. No row appears twice. |
| Dao.GetSubscriptionsExpiringBetween | app/src/main/java/com/example/subscmng/data/dao/SubscriptionDao.kt:21-22 | A row is listed if and only if it is active, its expiration date is not null, and start <= date <= end (both ends included). |
| Dao.GetTotalAmountByCycle | app/src/main/java/com/example/subscmng/data/dao/SubscriptionDao.kt:24-25 | The SUM is null exactly when no active row has that cycle; otherwise it is the sum of those rows' amounts. |
| Dao.TotalIsSumOfListing | app/src/main/java/com/example/subscmng/data/dao/SubscriptionDao.kt:18-25 | The SUM adds up exactly the rows the cycle listing returns, and is null exactly when that listing is empty. |
| Dao.SubscriptionDao.InsertSubscription | app/src/main/java/com/example/subscmng/data/dao/SubscriptionDao.kt:27-28 | A record with id 0 is stored under a fresh id (the counter), and that id is returned; an explicit id is used as given. An id that is already taken fails with a constraint violation, and a storage fault fails too; either failure leaves the table as it was. On success the new row is the record with the new id, and every other row is unchanged. |
| Dao.SubscriptionDao.UpdateSubscription | app/src/main/java/com/example/subscmng/data/dao/SubscriptionDao.kt:30-31 | Only the row keyed by the record's id is replaced. If no row has that key, nothing changes. |
| Dao.SubscriptionDao.DeleteSubscription | app/src/main/java/com/example/subscmng/data/dao/SubscriptionDao.kt:33-34 | Only the row with the record's primary key is removed. |
| Dao.SubscriptionDao.DeactivateSubscription | app/src/main/java/com/example/subscmng/data/dao/SubscriptionDao.kt:36-37 | Only `isActive` of that one row changes, to false. `updatedAt` is not touched, and no other row changes. |
| Dao.DeleteTotal | app/src/main/java/com/example/subscmng/data/dao/SubscriptionDao.kt:33-34 | A hard delete lowers each cycle's total by exactly what the deleted row contributed to it. |
| Dao.DeactivateHides | app/src/main/java/com/example/subscmng/data/repository/SubscriptionRepository.kt:19-29 | After a soft delete, lookup by id still returns the row, now inactive and otherwise unchanged. No listing includes it, and each total drops by what it contributed. |
| Repository.SubscriptionRepository.GetAllActiveSubscriptions | app/src/main/java/com/example/subscmng/data/repository/SubscriptionRepository.kt:16-17 | Returns the DAO query's result for the current table. |
| Repository.SubscriptionRepository.GetSubscriptionById | app/src/main/java/com/example/subscmng/data/repository/SubscriptionRepository.kt:19-20 | Returns the DAO's result; a missing id gives None, not an error. |
| Repository.SubscriptionRepository.GetSubscriptionsByCycle | app/src/main/java/com/example/subscmng/data/repository/SubscriptionRepository.kt:22-23 | Returns the DAO query's result for the current table. |
| Repository.SubscriptionRepository.GetSubscriptionsExpiringBetween | app/src/main/java/com/example/subscmng/data/repository/SubscriptionRepository.kt:25-26 | Returns the DAO query's result for the current table. |
| Repository.SubscriptionRepository.GetTotalAmountByCycle | app/src/main/java/com/example/subscmng/data/repository/SubscriptionRepository.kt:28-29 | A null DAO sum reads as 0.0; otherwise the DAO value is returned unchanged. Either way, the result is the sum over the active rows of that cycle. |
| Repository.SubscriptionRepository.InsertSubscription | app/src/main/java/com/example/subscmng/data/repository/SubscriptionRepository.kt:31-32 | Returns the id the DAO generated, or the DAO's failure, unchanged. The table and the id counter change exactly as the DAO's insert says. |
| Repository.SubscriptionRepository.UpdateSubscription | app/src/main/java/com/example/subscmng/data/repository/SubscriptionRepository.kt:34-35 | Forwards to the DAO update; a fault comes back unchanged. |
| Repository.SubscriptionRepository.DeleteSubscription | app/src/main/java/com/example/subscmng/data/repository/SubscriptionRepository.kt:37-38 | Forwards to the DAO delete; a fault comes back unchanged. |
| Repository.SubscriptionRepository.DeactivateSubscription | app/src/main/java/com/example/subscmng/data/repository/SubscriptionRepository.kt:40-41 | Forwards to the DAO soft delete; a fault comes back unchanged. |
| ExchangeRate.RateStep | app/src/main/java/com/example/subscmng/data/service/ExchangeRateService.kt:18-58 | A call never fails. The rate returned is the one cached after the call, or 150.0 when nothing is cached. The cache either stays as it was or becomes the fetched rate stamped with this call's clock reading. A cached rate is never removed. |
| ExchangeRate.FreshHitIgnoresNetwork | app/src/main/java/com/example/subscmng/data/service/ExchangeRateService.kt:16-26 | If a rate is cached and less than 3,600,000 ms have passed (strictly), the cached rate is returned and the state is unchanged, whatever the request would have yielded. |
| ExchangeRate.MissFetches | app/src/main/java/com/example/subscmng/data/service/ExchangeRateService.kt:35-57 | When the cache is not fresh, a successful fetch is stored with the call's time and returned. A failed fetch changes neither field and returns the old rate, or 150.0. |
| ExchangeRate.InitialCallFetches | app/src/main/java/com/example/subscmng/data/service/ExchangeRateService.kt:14-22 | In the initial state (no rate, time 0) a call is never served from the cache, whatever the clock says. |
| ExchangeRate.StaysCached | app/src/main/java/com/example/subscmng/data/service/ExchangeRateService.kt:42 | Once a rate is cached, every later sequence of calls leaves a rate cached. |
| ExchangeRate.CachedRateWasFetched | app/src/main/java/com/example/subscmng/data/service/ExchangeRateService.kt:35-57 | After any sequence of calls, the cached rate is either the one held before or a rate that one of the requests returned. |
| ExchangeRate.FallbackNeverCached | app/src/main/java/com/example/subscmng/data/service/ExchangeRateService.kt:46-57 | Starting from the initial state, only fetched rates are ever cached, so 150.0 is cached only if a request returned it. |
| ExchangeRate.StableWithinTheHour | app/src/main/java/com/example/subscmng/data/service/ExchangeRateService.kt:16-26 | Every call made within the hour after a fetch returns the fetched rate and leaves both fields unchanged. |
| ExchangeRate.ConvertUsdToJpy | app/src/main/java/com/example/subscmng/data/service/ExchangeRateService.kt:60-62 | The product is not rounded: dividing by a non-zero rate gives back the amount, and a zero rate gives 0.0. A positive amount at a positive rate is positive. |
| ExchangeRate.ExchangeRateService.constructor | app/src/main/java/com/example/subscmng/data/service/ExchangeRateService.kt:14-15 | The service starts with no cached rate and `lastFetchTime` 0. |
| ExchangeRate.ExchangeRateService.GetUsdToJpyRate | app/src/main/java/com/example/subscmng/data/service/ExchangeRateService.kt:18-58 | The method returns success, and its result and new fields are exactly those of `RateStep`. |
| AddEdit.Validate | app/src/main/java/com/example/subscmng/ui/viewmodel/AddEditViewModel.kt:79-88 | The "required" message is given if and only if the name or the amount is blank. The "invalid amount" message is given if and only if neither is blank and the amount does not parse or parses to <= 0. Otherwise validation passes with the parsed, positive amount, so the required check takes precedence. |
| AddEdit.Converted | app/src/main/java/com/example/subscmng/ui/viewmodel/AddEditViewModel.kt:93-107 | The stored code is always "JPY". A JPY amount is kept as typed. A USD amount is converted at the rate, without rounding; a zero rate stores 0.0, and a positive amount at a positive rate stays positive. |
| AddEdit.SavedRecord | app/src/main/java/com/example/subscmng/ui/viewmodel/AddEditViewModel.kt:109-119 | The saved record carries the form's id and fields. `isActive` is true, and `createdAt` and `updatedAt` are both the time of the save. |
| AddEdit.Loaded | app/src/main/java/com/example/subscmng/ui/viewmodel/AddEditViewModel.kt:32-43 | Loading copies the row's fields and formats the amount. "USD" maps to USD and any other code maps to JPY. Edit mode is switched on; the loading flag and the error are kept. |
| AddEdit.EditReactivates | app/src/main/java/com/example/subscmng/ui/viewmodel/AddEditViewModel.kt:109-122 | Loading a stored JPY row and saving it untouched writes it back active, with both timestamps reset to the save time. An edit therefore reactivates a deactivated row and loses its creation time. |
| AddEdit.RateFailureUnreachable | app/src/main/java/com/example/subscmng/ui/viewmodel/AddEditViewModel.kt:100-103 | The rate service never returns a failure, so the "rate lookup failed" branch of save cannot run. |
| AddEdit.AddEditViewModel.constructor | app/src/main/java/com/example/subscmng/ui/viewmodel/AddEditViewModel.kt:139-151 | The form starts at its defaults: id 0, empty texts, JPY, monthly, day 1, no date, not editing, not loading, no error. |
| AddEdit.AddEditViewModel.LoadSubscription | app/src/main/java/com/example/subscmng/ui/viewmodel/AddEditViewModel.kt:27-46 | Id 0 or a missing id leaves the form unchanged. Otherwise the form becomes the loaded row, in edit mode. |
| AddEdit.AddEditViewModel.UpdateServiceName | app/src/main/java/com/example/subscmng/ui/viewmodel/AddEditViewModel.kt:48-50 | Only `serviceName` changes. |
| AddEdit.AddEditViewModel.UpdateAmount | app/src/main/java/com/example/subscmng/ui/viewmodel/AddEditViewModel.kt:52-54 | Only the amount text changes. |
| AddEdit.AddEditViewModel.UpdateCurrency | app/src/main/java/com/example/subscmng/ui/viewmodel/AddEditViewModel.kt:56-58 | Only the currency changes. |
| AddEdit.AddEditViewModel.UpdatePaymentCycle | app/src/main/java/com/example/subscmng/ui/viewmodel/AddEditViewModel.kt:60-62 | Only the cycle changes. |
| AddEdit.AddEditViewModel.UpdatePaymentDay | app/src/main/java/com/example/subscmng/ui/viewmodel/AddEditViewModel.kt:64-66 | Only the payment day changes; any integer is accepted. |
| AddEdit.AddEditViewModel.UpdateExpirationDate | app/src/main/java/com/example/subscmng/ui/viewmodel/AddEditViewModel.kt:68-70 | Only the expiration date changes, and it may become null. |
| AddEdit.AddEditViewModel.UpdateMemo | app/src/main/java/com/example/subscmng/ui/viewmodel/AddEditViewModel.kt:72-74 | Only the memo changes. |
| AddEdit.AddEditViewModel.ClearError | app/src/main/java/com/example/subscmng/ui/viewmodel/AddEditViewModel.kt:134-136 | Only `errorMessage` changes, to null. |
| AddEdit.AddEditViewModel.SaveSubscription | app/src/main/java/com/example/subscmng/ui/viewmodel/AddEditViewModel.kt:76-132 | A failed check sets its message and does no rate call and no write. Past the checks, the rate service is called only for USD. The record goes to update in edit mode and to insert otherwise, where it always gets a fresh id. `onSuccess` runs exactly when there is no storage fault. On success the form is unchanged; on a fault it gets the "save failed" message. The id counter advances by one exactly when a new record is inserted. |
| Home.TotalMatchesListing | app/src/main/java/com/example/subscmng/ui/viewmodel/HomeViewModel.kt:22-32 | The total shown for a cycle (a null SUM read as 0.0) is the sum of the amounts of the listing shown for that cycle. |
| Home.Totals | app/src/main/java/com/example/subscmng/ui/viewmodel/HomeViewModel.kt:29-40 | After a load, the totals are the sums over the active monthly and yearly rows, and loading is over. |
| Home.TotalsMatchListings | app/src/main/java/com/example/subscmng/ui/viewmodel/HomeViewModel.kt:21-38 | Each total shown equals the sum over the listing the screen shows for its cycle. |
| Home.DeleteLowersTotals | app/src/main/java/com/example/subscmng/ui/viewmodel/HomeViewModel.kt:42-47 | After a hard delete, each total drops by what the deleted row contributed. It is unchanged when the row was inactive or missing. |
| Home.HomeViewModel.constructor | app/src/main/java/com/example/subscmng/ui/viewmodel/HomeViewModel.kt:18-27 | The view model starts at the initial state (0.0, 0.0, loading) and runs `loadTotals`, so the screen shows the current totals. |
| Home.HomeViewModel.LoadTotals | app/src/main/java/com/example/subscmng/ui/viewmodel/HomeViewModel.kt:29-40 | Both totals come from the repository, and `isLoading` becomes false. |
| Home.HomeViewModel.DeleteSubscription | app/src/main/java/com/example/subscmng/ui/viewmodel/HomeViewModel.kt:42-47 | The row is hard-deleted, not deactivated, and the totals are reloaded from the new table. A storage fault stops the routine before the reload. The id counter is unchanged. |
| Notification.HashCode | app/src/main/java/com/example/subscmng/notification/NotificationWorker.kt:61 | The notification id is Java's `String.hashCode`: `31*h + unit` over the UTF-16 units, wrapped to a signed 32-bit int. |
| Notification.DistinctNamesCanCollide | app/src/main/java/com/example/subscmng/notification/NotificationWorker.kt:61 | Different names can share an id ("Aa" and "BB" both hash to 2112), so one notification can replace another's. |
| Notification.NotificationFor | app/src/main/java/com/example/subscmng/notification/NotificationWorker.kt:53-59 | The notification is on channel "subscription_notification_channel" with the fixed title, and its text begins with the service name. |
| Notification.PostFor | app/src/main/java/com/example/subscmng/notification/NotificationWorker.kt:48-62 | One subscription gives one post, keyed by the hash of its name. |
| Notification.PostsInListOrder | app/src/main/java/com/example/subscmng/notification/NotificationWorker.kt:43-45 | The calls are exactly one per subscription, in list order. |
| Notification.PostAllKeys | app/src/main/java/com/example/subscmng/notification/NotificationWorker.kt:43-61 | After posting, the ids shown are the old ones plus the hashes of the listed names. |
| Notification.PostAllOverlay | app/src/main/java/com/example/subscmng/notification/NotificationWorker.kt:43-61 | Posting overwrites what was shown under the ids it uses and keeps every other id. |
| Notification.PostAllIdempotent | app/src/main/java/com/example/subscmng/notification/NotificationWorker.kt:43-61 | A second run over the same listing leaves the same ids and the same notifications. |
| Notification.EqualNamesCollide | app/src/main/java/com/example/subscmng/notification/NotificationWorker.kt:61 | Two listed subscriptions with the same name leave fewer ids than subscriptions: one overwrites the other. |
| Notification.NotificationManager.Notify | app/src/main/java/com/example/subscmng/notification/NotificationWorker.kt:61 | The notification replaces whatever was shown under that id, and the call is logged. |
| Notification.NotificationWorker.ShowNotification | app/src/main/java/com/example/subscmng/notification/NotificationWorker.kt:48-62 | Exactly one `notify`, keyed by the hash of the name. |
| Notification.NotificationWorker.NotifyEach | app/src/main/java/com/example/subscmng/notification/NotificationWorker.kt:43-45 | One `notify` per subscription, in order. The manager ends up as the old map overlaid with the posts. |
| Notification.NotificationWorker.CheckExpiringSubscriptions | app/src/main/java/com/example/subscmng/notification/NotificationWorker.kt:33-46 | The check queries the window from `today` to `plusSevenDays(today)`, which is later than `today`, and posts once per hit, in list order. A failing query posts nothing. The table is only read. |
| Notification.NotificationWorker.DoWork | app/src/main/java/com/example/subscmng/notification/NotificationWorker.kt:24-31 | The window runs from `today` to `plusSevenDays(today)`. The result is success when the check completes and failure when it throws, with no retry. The ids shown become the old ones plus the hashes of the hits. An empty window posts nothing and succeeds. The table is never written. |

## Left out

- The Compose screens, navigation, permission requests and `MainActivity` are not modelled. The 1-31 limit on the payment day exists only in the screen; `UpdatePaymentDay` accepts any integer.
- `DetailViewModel` (in DetailScreen.kt) is not part of this model. Its two calls are the repository's lookup and delete, which are modelled.
- The HTTP request and the JSON parsing of the rate service are not modelled. They become the `fetch` parameter, and an exception anywhere in them is `None`.
- `System.currentTimeMillis`, `Date()` and `Calendar` are not modelled; their readings are parameters. Daylight-saving time is not modelled.
- Entity.NewSubscription uses one clock reading `now` for both `createdAt` and `updatedAt`. The source takes two `Date()` defaults a moment apart (`Subscription.kt` lines 19-20).
- AddEdit.SavedRecord uses one clock reading `now` for both timestamps. The source takes the `createdAt` default and the `updatedAt = Date()` argument a moment apart (`AddEditViewModel.kt` line 118).
- Floating point is not modelled: amounts, sums and rates are real numbers.
- ExchangeRate.ConvertUsdToJpy does not model IEEE rounding of the product.
- Dao.GetTotalAmountByCycle does not model rounding in SQL's SUM.
- AddEdit.Validate: `parseAmount` cannot return NaN or infinity. In the source, the text "NaN" parses to NaN, passes the `<= 0` check and would be saved.
- Storage faults are modelled on the four writes and on the worker's query. The other reads cannot fail in the model. In the source, a failing read in `loadSubscription` or `loadTotals` ends its coroutine with an uncaught exception.
- Home.HomeViewModel.DeleteSubscription models a failing delete as ending before the reload. In the source, that exception is uncaught inside the coroutine.
- Notification.NotificationWorker.CheckExpiringSubscriptions takes the window end as `plusSevenDays(today)`, an abstract function known only to move forward. It is not computed as today plus seven calendar days.
- Notification.NotificationWorker.DoWork does not model `notify` throwing part way through the loop. In the source, that would give failure after some notifications were already posted.
- Kotlin Flows and their re-emission, `viewModelScope`, `withContext` and races on the rate cache's unsynchronised fields are not modelled. A listing is the query's result for the table at the moment of the call.
- Ids are unbounded integers. SQLite's 64-bit rowid limit, where AUTOINCREMENT fails with SQLITE_FULL, is not modelled.
- WorkManager scheduling (`scheduleNotificationCheck`), notification channel creation, the icon, priority and auto-cancel flags, `AppDatabase`, the dependency-injection module and the `Converters` type are not part of this model.

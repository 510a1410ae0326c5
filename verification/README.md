# Stocks portfolio: holdings, read-through cache and view-model, in Dafny

This project models the sequential core of a small Android stocks-portfolio
app and proves properties of that model. It covers four parts.

- **Holdings** (`Domain`, `Portfolio.dfy`). A holding has a symbol, a quantity and three prices. From these it derives its market value, its cost, the day's figure and its overall gain. Prices are `real`, and the quantity is a Kotlin `Int` (`Int32`).
- **The DTO mapping** (`Dto`, `PortfolioDto.dfy`). This is the field-for-field copy from the remote endpoint's `UserHoldingDto` to the domain `Portfolio`.
- **The local cache** (`LocalCache`, `LocalDataSource.dfy`). It is one SQLite table whose primary key is `symbol`, abstracted to a map from symbol to the other four columns.
  - A save deletes every row and then inserts the holdings with replace-on-conflict, inside a transaction. It can end normally, throw before the commit (the table is rolled back), or throw from `db.close()` after the commit.
  - A read has no `ORDER BY`, so the order in which it visits the keys is a parameter. The only requirement is that the order lists every key exactly once.
- **The repository** (`Repository`, `PortfolioRepository.dfy`). `getPortfolios` is a pure function from a remote outcome, a save outcome, a cache read and the table to a result and the table it leaves.
  - It tries the remote call, the mapping and the save.
  - On any exception it falls back to the cache. A non-empty cache is a success. An empty cache is an `IOException("Network error and no cached data available.")` whose cause is the original exception. A failed read is that read's own exception.
- **The view-model** (`ViewModel`, `PortfolioViewModel.dfy`).
  - `fetchPortfolios` assigns `Loading` and then one terminal state: `Success` with the per-holding sums and the gain percentage, or `Error` with the exception's message, defaulting to "Unknown error".
  - The observed `LiveData` is the sequence of values assigned to it.
  - `init` fetches once.
- **End to end** (`Pipeline`, `Pipeline.dfy`). The use case passes the repository's result through unchanged. A fetch of the app is the view-model's fetch over the repository's answer.

Nothing here performs I/O. The remote call's outcome, the save's outcome and the read's outcome (including its row order) are parameters.

## Model

| member | source | states |
|---|---|---|
| Domain.Portfolio.ProfitAndLoss | domain/src/main/java/com/app/domain/Portfolio.kt:19-20 | the gain (market value less cost) is the per-share gap `ltp - avgPrice` times the quantity |
| Domain.ZeroQuantityFigures | domain/src/main/java/com/app/domain/Portfolio.kt:10-20 | with quantity 0, the market value, cost, day's figure and gain are all 0 |
| Domain.ProfitSign | domain/src/main/java/com/app/domain/Portfolio.kt:19-20 | for a positive quantity the gain is non-negative exactly when `ltp >= avgPrice` |
| Domain.FiguresIgnoreSymbol | domain/src/main/java/com/app/domain/Portfolio.kt:10-20 | changing the symbol changes none of the four derived figures |
| Domain.RelianceFigures | domain/src/test/java/com/app/domain/PortfolioTest.kt:9-24 | the profitable test holding has figures 25000, 24000, 1000 and 1000 |
| Domain.AirtelFigures | domain/src/test/java/com/app/domain/PortfolioTest.kt:27-42 | the loss-making test holding has figures 34000, 37000, -5000 and -3000 |
| Dto.ToDomain | data/src/main/java/com/app/data/model/PortfolioDto.kt:13-21 | the mapping is total and copies symbol, quantity, ltp, avgPrice and close unchanged |
| Dto.ToDomainInjective | data/src/main/java/com/app/data/model/PortfolioDto.kt:13-21 | distinct DTOs map to distinct holdings |
| Dto.MapToDomain | data/src/main/java/com/app/data/repository/PortfolioRepositoryImpl.kt:22 | mapping a list keeps its length, and position i of the result is the mapping of position i |
| Dto.MapToDomainInjective | data/src/main/java/com/app/data/repository/PortfolioRepositoryImpl.kt:22 | the mapped list determines the DTO list it came from |
| Dto.MappingExample | data/src/test/java/com/app/data/PortfolioRepositoryImplTest.kt:226-273 | the two test DTOs map to the two expected holdings, in order |
| LocalCache.EntryRowOf | data/src/main/java/com/app/data/source/local/LocalDataSourceImpl.kt:39-46 | the columns written for a holding rebuild exactly that holding when read |
| LocalCache.InsertAll | data/src/main/java/com/app/data/source/local/LocalDataSourceImpl.kt:39-48 | the inserts add exactly the inserted symbols as keys and leave rows with other symbols untouched; a symbol inserted several times keeps its last holding (replace on conflict) |
| LocalCache.Replace | data/src/main/java/com/app/data/source/local/LocalDataSourceImpl.kt:37-48 | after delete-all and the inserts, the keys are exactly the saved symbols, so no earlier row survives unless its symbol was saved again; duplicates resolve to the later holding |
| LocalCache.Save | data/src/main/java/com/app/data/source/local/LocalDataSourceImpl.kt:33-54 | success is reported exactly when the save ends normally; a failure before the commit leaves the table unchanged; a save that ends normally, and one whose `db.close()` throws after the commit, leave exactly `Replace` of the saved list, so no earlier row survives and the later duplicate wins |
| LocalCache.Rows | data/src/main/java/com/app/data/source/local/LocalDataSourceImpl.kt:14-27 | the cursor loop builds one holding per visited key, in visiting order, each from that key's stored row |
| LocalCache.Read | data/src/main/java/com/app/data/source/local/LocalDataSourceImpl.kt:11-31 | a read either throws or returns one holding per stored row, with all five fields equal to the stored ones and no symbol twice; a holding is in the result exactly when it is stored |
| LocalCache.ScansArePermutations | data/src/main/java/com/app/data/source/local/LocalDataSourceImpl.kt:13 | any two scan orders of the same table visit the same keys |
| LocalCache.RowsPermute | data/src/main/java/com/app/data/source/local/LocalDataSourceImpl.kt:13-27 | scanning the table in a permuted order returns a permutation of the rows |
| LocalCache.SaveReadRoundTrip | data/src/main/java/com/app/data/source/local/LocalDataSourceImpl.kt:11-54 | saving a list without repeated symbols and reading it back returns the same holdings, as a multiset, whatever the scan order |
| LocalCache.SaveReadKeepsLast | data/src/main/java/com/app/data/source/local/LocalDataSourceImpl.kt:47 | with repeated symbols, reading after a save returns one holding per distinct symbol, and a holding is returned exactly when it is the last saved with its symbol |
| LocalCache.LastIndex | data/src/main/java/com/app/data/source/local/LocalDataSourceImpl.kt:39-48 | every saved symbol has a last position in the list, holding that symbol |
| Repository.NoCachedData | data/src/main/java/com/app/data/repository/PortfolioRepositoryImpl.kt:37 | the empty-cache failure is an `IOException` with the fixed message whose cause is the exception that led to the fallback |
| Repository.Attempt | data/src/main/java/com/app/data/repository/PortfolioRepositoryImpl.kt:17-28 | the try block succeeds exactly when the remote call and the save both end normally, and then returns the mapped list; otherwise it reports the remote or save exception; the table is untouched after a remote failure or a rollback and is `Replace` of the mapped list otherwise |
| Repository.Recover | data/src/main/java/com/app/data/repository/PortfolioRepositoryImpl.kt:29-42 | the fallback succeeds exactly when the read succeeds on a non-empty cache, with exactly the cached holdings; an empty cache gives the wrapped IOException; a failed read gives its own exception |
| Repository.GetPortfolios | data/src/main/java/com/app/data/repository/PortfolioRepositoryImpl.kt:16-43 | a success carries either the fresh mapped list or a non-empty cached list; every fallback, after a remote failure or a failed save, gives exactly what `Recover` gives on the table the save left, so it is the cached rows, `NoCachedData` of the exception or the read's own exception; the table is left unchanged after a remote failure or a rollback and is `Replace` of the mapped list in every other case; every failure is the read's exception or the wrapped IOException with the remote or save exception as cause |
| Repository.FreshDataIsSavedAndReturned | data/src/test/java/com/app/data/PortfolioRepositoryImplTest.kt:36-84 | remote and save succeed: the mapped list is returned and the table holds exactly it |
| Repository.EmptyRemoteEmptiesCache | data/src/test/java/com/app/data/PortfolioRepositoryImplTest.kt:205-223 | an empty remote list is saved, which empties the table, and returned as a success |
| Repository.OfflineServesCache | data/src/test/java/com/app/data/PortfolioRepositoryImplTest.kt:86-113 | remote fails, cache non-empty: the cached rows are returned and the table is not written |
| Repository.OfflineEmptyCacheFails | data/src/test/java/com/app/data/PortfolioRepositoryImplTest.kt:115-139 | remote fails, cache empty: the IOException with the fixed message and the remote exception as cause |
| Repository.CacheReadFailurePassesThrough | data/src/test/java/com/app/data/PortfolioRepositoryImplTest.kt:140-159 | remote fails and the read fails: the read's exception itself, unwrapped |
| Repository.FailedSaveReadFailurePassesThrough | data/src/main/java/com/app/data/repository/PortfolioRepositoryImpl.kt:25-40 | the save fails, before or after its commit, and then the read fails: the read's exception itself, not the save's; the table is unchanged after a rollback and holds the new rows after a late failure |
| Repository.FailedSaveEmptyCacheFails | data/src/test/java/com/app/data/PortfolioRepositoryImplTest.kt:161-203 | the save fails and the cache is empty: the IOException with the save exception as cause |
| Repository.FailedSaveServesStaleCache | data/src/main/java/com/app/data/repository/PortfolioRepositoryImpl.kt:25-35 | the save rolls back and the cache is non-empty: the stale rows are returned as a success and the table is unchanged |
| Repository.LateSaveFailureReadsNewRows | data/src/main/java/com/app/data/source/local/LocalDataSourceImpl.kt:49-53 | closing the database throws after the commit: the table holds the new rows; for a non-empty fetch the fallback returns one holding per fetched symbol, exactly the last one fetched with it, and with distinct symbols the fetched list up to order; an empty fetch gives the wrapped save exception |
| ViewModel.Total | presentation/src/main/java/com/app/presentation/viewmodel/PortfolioViewModel.kt:24-26 | `sumOf`'s accumulator loop computes the sum of the figure over the holdings |
| ViewModel.SumOfAppend | presentation/src/main/java/com/app/presentation/viewmodel/PortfolioViewModel.kt:24-26 | the sum over a concatenation is the sum of the two sums |
| ViewModel.SumOfPermutation | presentation/src/main/java/com/app/presentation/viewmodel/PortfolioViewModel.kt:24-26 | lists with the same elements have the same sums |
| ViewModel.ProfitIsDifference | presentation/src/main/java/com/app/presentation/viewmodel/PortfolioViewModel.kt:27 | total market value less total cost equals the sum of the holdings' gains |
| ViewModel.Summarise | presentation/src/main/java/com/app/presentation/viewmodel/PortfolioViewModel.kt:24-40 | the model keeps the holdings unchanged; its totals are the per-holding sums; the total gain is the sum of the gains; the percentage times the investment is 100 times the gain, and the percentage is 0 when the investment is 0; no holdings give all zeros |
| ViewModel.SummaryIgnoresOrder | presentation/src/main/java/com/app/presentation/viewmodel/PortfolioViewModel.kt:24-32 | reordering the holdings changes none of the totals or the percentage |
| ViewModel.ErrorMessage | presentation/src/main/java/com/app/presentation/viewmodel/PortfolioViewModel.kt:43 | the error text is the exception's message, or "Unknown error" when it has none |
| ViewModel.Terminal | presentation/src/main/java/com/app/presentation/viewmodel/PortfolioViewModel.kt:22-44 | a finished call gives a non-`Loading` state, `Success` exactly when the call succeeded, and then with `Summarise` of the result's holdings (its totals and percentage), and `Error` with the message otherwise |
| ViewModel.Observed | presentation/src/main/java/com/app/presentation/viewmodel/PortfolioViewModel.kt:12-13 | the observed value is the last one assigned, and there is none before the first assignment |
| ViewModel.FetchPortfolios | presentation/src/main/java/com/app/presentation/viewmodel/PortfolioViewModel.kt:19-46 | a fetch appends `Loading` and then the terminal state for the result, and calls the use case once |
| ViewModel.Create | presentation/src/main/java/com/app/presentation/viewmodel/PortfolioViewModel.kt:15-17 | construction calls the use case exactly once and emits exactly `Loading` and then the terminal state, which is the observed value |
| ViewModel.Session | presentation/src/test/java/com/app/presentation/PortfolioViewModelTest.kt:180-198 | after construction and further fetches, the use case ran once per fetch, each fetch emitted `Loading` then its own terminal state, and the observed value is the last fetch's state |
| ViewModel.FetchKeepsTraceWellFormed | presentation/src/main/java/com/app/presentation/viewmodel/PortfolioViewModel.kt:19-44 | a fetch keeps the emitted trace made of `Loading`/terminal pairs |
| ViewModel.TwoHoldingsTotals | presentation/src/test/java/com/app/presentation/PortfolioViewModelTest.kt:58-89 | the two test holdings give totals 3000, 2300, 700 and 25, and a percentage of 700/23 |
| ViewModel.EmptyHoldingsGiveZeros | presentation/src/test/java/com/app/presentation/PortfolioViewModelTest.kt:92-109 | no holdings: `Loading`, then a success with all totals 0 |
| ViewModel.FailureShowsMessage | presentation/src/test/java/com/app/presentation/PortfolioViewModelTest.kt:112-123 | a failure with a message shows that message |
| ViewModel.FailureWithoutMessage | presentation/src/test/java/com/app/presentation/PortfolioViewModelTest.kt:126-135 | a failure without a message shows "Unknown error" |
| Pipeline.GetPortfolioUseCase | domain/src/main/java/com/app/usecase/GetPortfolioUsecase.kt:7-9 | the use case hands on the repository's result, success or failure, unchanged and is equal to it; so a success is the fresh list or a non-empty cached list, and the table is unchanged after a remote failure or rollback and `Replace` of the mapped list otherwise |
| Pipeline.Fetch | presentation/src/main/java/com/app/presentation/viewmodel/PortfolioViewModel.kt:19-46 | an app fetch calls the use case once and emits `Loading` then exactly one terminal state, which is `Success` exactly when the repository succeeded and is in every case the terminal state of the repository's result (the summary of its holdings, or the error's message); after a remote failure or a rollback the table is not written, and otherwise it is `Replace` of the mapped list |
| Pipeline.OnlineShowsFreshTotals | data/src/main/java/com/app/data/repository/PortfolioRepositoryImpl.kt:17-28 | online, the screen shows the summary of the mapped holdings and the table holds them |
| Pipeline.OfflineEmptyCacheShowsNoCachedData | data/src/main/java/com/app/data/repository/PortfolioRepositoryImpl.kt:36-37 | offline with an empty cache, the screen shows "Network error and no cached data available." |
| Pipeline.CacheReadFailureShowsItsMessage | data/src/main/java/com/app/data/repository/PortfolioRepositoryImpl.kt:39-40 | offline with a failing read, the screen shows the read exception's message, or "Unknown error" |
| Pipeline.OfflineTotalsIgnoreScanOrder | data/src/main/java/com/app/data/repository/PortfolioRepositoryImpl.kt:33-35 | offline with cached rows, the screen lists exactly the cached holdings, and its totals are the same for every scan order |
| Pipeline.LateSaveFailureShowsFreshTotals | data/src/main/java/com/app/data/source/local/LocalDataSourceImpl.kt:49-53 | when closing the database fails after the commit, a non-empty fetch with distinct symbols still shows the fresh totals |

## Left out

- HTTP and JSON parsing (`ApiServiceImpl.kt`): network I/O over a library. The remote call is an `Ok(list) | Err(exception)` parameter.
- SQLite mechanics: cursors, `ContentValues`, opening the database and the DDL. Only the primary key on `symbol` (`DbHelper.kt:16`) is kept, as the map's key.
- The read order: the query has no `ORDER BY`, so the order is a parameter. The model assumes only that it visits every stored key exactly once, as a query over a keyed table does.
- Coroutines, dispatchers, `viewModelScope.launch` and LiveData observers. A fetch is one sequential step that appends to the trace of assigned states.
- Throwables that are not `Exception`s: both handlers of `getPortfolios` are `catch (e: Exception)` (`PortfolioRepositoryImpl.kt:29` and `:39`), so a `java.lang.Error` escapes them although `Result.failure` could hold it. The model's exceptions are only the caught ones, and the escape is not modelled.
- UI: `MainActivity` (visibility, expander, colours) and `PortfolioAdapter` (spannables, `en-IN` currency formatting).
- Dependency-injection wiring, build scripts and the `Log.d` call (`PortfolioRepositoryImpl.kt:30`).
- IEEE-754 double rounding. Prices and totals are `real`, so the percentage is an exact quotient. The quantity is converted to `real` as Kotlin converts `Int` to `Double`. Using `real` is what makes the order-independence and difference results hold: `ViewModel.SummaryIgnoresOrder`, `Pipeline.OfflineTotalsIgnoreScanOrder`, `Pipeline.LateSaveFailureShowsFreshTotals` and `ViewModel.ProfitIsDifference` hold only in exact arithmetic. With Kotlin `Double`, `sumOf` over another scan order, or the total value minus the total investment compared with the summed gains, can differ in the last bits.
- The `totalPandLPercentage` field: the view-model passes it and the activity reads it, but `PortfolioUiModel.kt` declares no such field. The model includes the field and follows the view-model's rule for it.
- UiState.kt is not part of this model, but `UiState` is modelled: its three cases follow their uses at `PortfolioViewModel.kt:20,41,43` and `MainActivity.kt:104-122`.
- The unit tests' `mockk` verification of `savePortfolios` arguments. The model states it directly: the table after the save is `Replace` of the mapped list.

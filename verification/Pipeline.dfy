/** The app end to end: a `fetchPortfolios()` of the view-model runs the
    use case, which hands back the repository's result unchanged, and the
    view-model turns that result into the state the screen shows. */
module Pipeline {
  import opened Outcomes
  import opened Domain
  import opened Dto
  import opened LocalCache
  import opened Repository
  import opened ViewModel

  /** The view-model together with the cache table it reads through. */
  datatype App = App(vm: ViewModelState, cache: Table)

  /** `GetPortfolioUseCase.invoke()`: it returns the repository's result
      as it is, so the result is the repository's. */
  function GetPortfolioUseCase(remote: Outcome<seq<UserHoldingDto>>, save: SaveRun, read: ReadRun, cache: Table): (r: WithCache<Outcome<seq<Portfolio>>>)
    requires Admissible(remote, save, read, cache)
    ensures r == GetPortfolios(remote, save, read, cache)
    ensures r.result.Ok? ==> (remote.Ok? && r.result.value == MapToDomain(remote.value)) || |r.result.value| > 0
    ensures r.cache == cache || (remote.Ok? && !save.ThrowsBeforeCommit? && r.cache == Replace(MapToDomain(remote.value)))
    ensures remote.Err? || save.ThrowsBeforeCommit? ==> r.cache == cache
    ensures remote.Ok? && !save.ThrowsBeforeCommit? ==> r.cache == Replace(MapToDomain(remote.value))
  {
    GetPortfolios(remote, save, read, cache)
  }

  /** One fetch of the running app. The screen first shows `Loading` and
      then exactly one terminal state, which is `Success` exactly when the
      repository succeeded; the table is written only with the fetched
      holdings, and never when the remote call failed. */
  function Fetch(app: App, remote: Outcome<seq<UserHoldingDto>>, save: SaveRun, read: ReadRun): (r: App)
    requires Admissible(remote, save, read, app.cache)
    ensures r.vm.useCaseCalls == app.vm.useCaseCalls + 1
    ensures |r.vm.emitted| == |app.vm.emitted| + 2
    ensures r.vm.emitted[..|app.vm.emitted|] == app.vm.emitted
    ensures r.vm.emitted[|app.vm.emitted|] == Loading
    ensures Observed(r.vm).Some? && !Observed(r.vm).value.Loading?
    ensures Observed(r.vm).value.Success? <==> GetPortfolios(remote, save, read, app.cache).result.Ok?
    ensures Observed(r.vm) == Some(Terminal(GetPortfolios(remote, save, read, app.cache).result))
    ensures remote.Err? ==> r.cache == app.cache
    ensures r.cache == app.cache || r.cache == Replace(MapToDomain(remote.value))
    ensures save.ThrowsBeforeCommit? ==> r.cache == app.cache
    ensures remote.Ok? && !save.ThrowsBeforeCommit? ==> r.cache == Replace(MapToDomain(remote.value))
  {
    var answer := GetPortfolioUseCase(remote, save, read, app.cache);
    var vm := FetchPortfolios(app.vm, answer.result);
    assert vm.emitted[..|app.vm.emitted|] == app.vm.emitted;
    App(vm, answer.cache)
  }

  /** Online: the screen shows the totals of the fetched holdings, and the
      table now holds them. */
  lemma {:induction false} OnlineShowsFreshTotals(app: App, dtos: seq<UserHoldingDto>, read: ReadRun)
    ensures var r := Fetch(app, Ok(dtos), Commits, read);
      && Observed(r.vm) == Some(Success(Summarise(MapToDomain(dtos))))
      && r.cache == Replace(MapToDomain(dtos))
  {
  }

  /** Offline with an empty cache: the screen shows the wrapped
      exception's message. */
  lemma {:induction false} OfflineEmptyCacheShowsNoCachedData(app: App, e: Exception, save: SaveRun)
    requires app.cache == map[]
    ensures var r := Fetch(app, Err(e), save, Scans([]));
      Observed(r.vm) == Some(Error("Network error and no cached data available.")) && r.cache == map[]
  {
  }

  /** Offline and the cache read fails: the screen shows the read
      exception's own message, or "Unknown error" when it has none. */
  lemma {:induction false} CacheReadFailureShowsItsMessage(app: App, e: Exception, cacheException: Exception, save: SaveRun)
    ensures var r := Fetch(app, Err(e), save, Throws(cacheException));
      && (cacheException.message.Some? ==> Observed(r.vm) == Some(Error(cacheException.message.value)))
      && (cacheException.message.None? ==> Observed(r.vm) == Some(Error("Unknown error")))
      && r.cache == app.cache
  {
  }

  /** Offline with cached rows: the screen lists exactly the cached
      holdings, and its totals do not depend on the order in which the
      database returns the rows. */
  lemma {:induction false} OfflineTotalsIgnoreScanOrder(app: App, e: Exception, save: SaveRun, o1: seq<string>, o2: seq<string>)
    requires |app.cache| > 0
    requires Enumerates(o1, app.cache.Keys) && Enumerates(o2, app.cache.Keys)
    ensures var s1, s2 := Observed(Fetch(app, Err(e), save, Scans(o1)).vm), Observed(Fetch(app, Err(e), save, Scans(o2)).vm);
      && s1.Some? && s1.value.Success? && s2.Some? && s2.value.Success?
      && (forall p :: p in s1.value.data.holdings <==> p.symbol in app.cache && app.cache[p.symbol] == RowOf(p))
      && s1.value.data.(holdings := s2.value.data.holdings) == s2.value.data
  {
    var rows1, rows2 := Rows(app.cache, o1), Rows(app.cache, o2);
    ScansArePermutations(o1, o2, app.cache.Keys);
    RowsPermute(app.cache, o1, o2);
    SummaryIgnoresOrder(rows1, rows2);
  }

  /** Closing the database fails after the save committed: the fallback
      reads the new rows back, so a non-empty fetch with distinct symbols
      still shows the fresh totals, whatever order the rows come back in. */
  lemma {:induction false} LateSaveFailureShowsFreshTotals(app: App, dtos: seq<UserHoldingDto>, saveException: Exception, order: seq<string>)
    requires dtos != []
    requires DistinctSymbols(MapToDomain(dtos))
    requires Enumerates(order, Replace(MapToDomain(dtos)).Keys)
    ensures var s := Observed(Fetch(app, Ok(dtos), ThrowsAfterCommit(saveException), Scans(order)).vm);
      && s.Some? && s.value.Success?
      && s.value.data.(holdings := MapToDomain(dtos)) == Summarise(MapToDomain(dtos))
  {
    var mapped := MapToDomain(dtos);
    LateSaveFailureReadsNewRows(dtos, saveException, order, app.cache);
    var shown := GetPortfolios(Ok(dtos), ThrowsAfterCommit(saveException), Scans(order), app.cache).result.value;
    SummaryIgnoresOrder(shown, mapped);
  }
}

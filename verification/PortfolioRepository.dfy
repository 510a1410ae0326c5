/** The read-through cache policy of the repository: fetch the holdings
    from the remote endpoint, map them, replace the cache with them and
    return them; on any exception fall back to whatever the cache holds.

    The remote call, the save and the cache read are not run here: their
    outcomes are parameters, so `GetPortfolios` is a pure function from
    (remote outcome, save outcome, cache read, cache) to (result, cache). */
module Repository {
  import opened Outcomes
  import opened Domain
  import opened Dto
  import opened LocalCache

  const NoCachedDataMessage: string := "Network error and no cached data available."

  /** The `IOException` reported when the fallback finds an empty cache;
      its cause is the exception that sent the call to the fallback. */
  function NoCachedData(cause: Exception): (e: Exception)
    ensures e.cls == IOException && e.message == Some(NoCachedDataMessage)
    ensures e.cause == Some(cause)
  {
    Exception(IOException, Some(NoCachedDataMessage), Some(cause))
  }

  /** The `try` block: the remote call, the mapping and the save. It
      returns the fresh holdings only when both the call and the save end
      normally; otherwise the exception that ended it, together with the
      table as the save left it. */
  function Attempt(remote: Outcome<seq<UserHoldingDto>>, save: SaveRun, cache: Table): (r: WithCache<Outcome<seq<Portfolio>>>)
    ensures r.result.Ok? <==> remote.Ok? && save.Commits?
    ensures r.result.Ok? ==> r.result.value == MapToDomain(remote.value)
    ensures remote.Err? ==> r == WithCache(Err(remote.error), cache)
    ensures remote.Ok? && !save.Commits? ==> r.result == Err(save.error)
    ensures remote.Ok? && save.ThrowsBeforeCommit? ==> r.cache == cache
    ensures remote.Ok? && !save.ThrowsBeforeCommit? ==> r.cache == Replace(MapToDomain(remote.value))
  {
    match remote
    case Err(e) => WithCache(Err(e), cache)
    case Ok(dtos) =>
      var mapped := MapToDomain(dtos);
      var saved := Save(cache, mapped, save);
      match saved.result
      case Ok(_) => WithCache(Ok(mapped), saved.cache)
      case Err(e) => WithCache(Err(e), saved.cache)
  }

  /** The `catch` block: read the cache. A non-empty cache is returned as
      a success, an empty one as `NoCachedData(cause)`, and a failed read
      as its own exception, unwrapped. */
  function Recover(cause: Exception, read: ReadRun, cache: Table): (r: Outcome<seq<Portfolio>>)
    requires ReadFits(read, cache)
    ensures r.Ok? <==> read.Scans? && |cache| > 0
    ensures r.Ok? ==> |r.value| == |cache| > 0
    ensures r.Ok? ==> forall p :: p in r.value <==> p.symbol in cache && cache[p.symbol] == RowOf(p)
    ensures read.Scans? && |cache| == 0 ==> r == Err(NoCachedData(cause))
    ensures read.Throws? ==> r == Err(read.error)
  {
    match Read(cache, read)
    case Err(cacheException) => Err(cacheException)
    case Ok(local) =>
      if |local| > 0 then Ok(local) else Err(NoCachedData(cause))
  }

  /** The scan is one the database could perform on the table the
      fallback would read. */
  predicate Admissible(remote: Outcome<seq<UserHoldingDto>>, save: SaveRun, read: ReadRun, cache: Table) {
    var attempt := Attempt(remote, save, cache);
    attempt.result.Err? ==> ReadFits(read, attempt.cache)
  }

  /** `getPortfolios`. A success either carries the freshly fetched and
      saved holdings, or comes from the fallback and is non-empty. The
      table is either left as it was or replaced by the fetched holdings,
      the latter never when the remote call failed or the save rolled
      back. A failure is the cache read's own exception or `NoCachedData`
      wrapping the remote or save exception. */
  function GetPortfolios(remote: Outcome<seq<UserHoldingDto>>, save: SaveRun, read: ReadRun, cache: Table): (r: WithCache<Outcome<seq<Portfolio>>>)
    requires Admissible(remote, save, read, cache)
    ensures r.result.Ok? ==>
      || (remote.Ok? && save.Commits? && r.result.value == MapToDomain(remote.value))
      || |r.result.value| > 0
    ensures r.cache == cache || (remote.Ok? && !save.ThrowsBeforeCommit? && r.cache == Replace(MapToDomain(remote.value)))
    ensures remote.Err? || save.ThrowsBeforeCommit? ==> r.cache == cache
    ensures remote.Ok? && !save.ThrowsBeforeCommit? ==> r.cache == Replace(MapToDomain(remote.value))
    ensures remote.Err? ==> r.result == Recover(remote.error, read, Attempt(remote, save, cache).cache)
    ensures remote.Ok? && !save.Commits? ==> r.result == Recover(save.error, read, Attempt(remote, save, cache).cache)
    ensures r.result.Err? ==>
      || (read.Throws? && r.result.error == read.error)
      || (remote.Err? && r.result.error == NoCachedData(remote.error))
      || (remote.Ok? && !save.Commits? && r.result.error == NoCachedData(save.error))
  {
    var attempt := Attempt(remote, save, cache);
    match attempt.result
    case Ok(mapped) => attempt
    case Err(e) => WithCache(Recover(e, read, attempt.cache), attempt.cache)
  }

  // The scenarios of the repository's unit tests, and the cases they leave out.

  /** Remote call and save succeed: the mapped holdings are returned, and
      the cache now holds exactly them. */
  lemma {:induction false} FreshDataIsSavedAndReturned(dtos: seq<UserHoldingDto>, read: ReadRun, cache: Table)
    ensures var r := GetPortfolios(Ok(dtos), Commits, read, cache);
      && r.result == Ok(MapToDomain(dtos))
      && r.cache == Replace(MapToDomain(dtos))
      && r.cache.Keys == Symbols(MapToDomain(dtos))
  {
  }

  /** An empty remote list is saved, which empties the cache, and returned. */
  lemma {:induction false} EmptyRemoteEmptiesCache(read: ReadRun, cache: Table)
    ensures var r := GetPortfolios(Ok([]), Commits, read, cache);
      r.result == Ok([]) && r.cache == map[]
  {
  }

  /** Remote call fails, cache holds rows: those rows are returned and the
      cache is not written. */
  lemma {:induction false} OfflineServesCache(e: Exception, save: SaveRun, order: seq<string>, cache: Table)
    requires |cache| > 0 && Enumerates(order, cache.Keys)
    ensures var r := GetPortfolios(Err(e), save, Scans(order), cache);
      && r.result == Ok(Rows(cache, order))
      && |r.result.value| == |cache|
      && r.cache == cache
  {
  }

  /** Remote call fails, cache empty: the wrapped `IOException` with the
      remote exception as cause, and no write. */
  lemma {:induction false} OfflineEmptyCacheFails(e: Exception, save: SaveRun)
    ensures var r := GetPortfolios(Err(e), save, Scans([]), map[]);
      && r.result == Err(Exception(IOException, Some("Network error and no cached data available."), Some(e)))
      && r.cache == map[]
  {
  }

  /** Remote call fails and so does the cache read: the read's exception,
      unwrapped, and no write. */
  lemma {:induction false} CacheReadFailurePassesThrough(e: Exception, cacheException: Exception, save: SaveRun, cache: Table)
    ensures var r := GetPortfolios(Err(e), save, Throws(cacheException), cache);
      r.result == Err(cacheException) && r.cache == cache
  {
  }

  /** The save rolls back and the cache was empty: the wrapped
      `IOException`, with the save exception as cause. */
  lemma {:induction false} FailedSaveEmptyCacheFails(dtos: seq<UserHoldingDto>, saveException: Exception)
    ensures var r := GetPortfolios(Ok(dtos), ThrowsBeforeCommit(saveException), Scans([]), map[]);
      r.result == Err(NoCachedData(saveException)) && r.cache == map[]
  {
  }

  /** The save rolls back and the cache held rows: the stale rows are
      returned as a success, and the cache is unchanged. */
  lemma {:induction false} FailedSaveServesStaleCache(dtos: seq<UserHoldingDto>, saveException: Exception, order: seq<string>, cache: Table)
    requires |cache| > 0 && Enumerates(order, cache.Keys)
    ensures var r := GetPortfolios(Ok(dtos), ThrowsBeforeCommit(saveException), Scans(order), cache);
      r.result == Ok(Rows(cache, order)) && r.cache == cache
  {
  }

  /** The save fails, before or after its commit, and then so does the
      cache read: the read's exception, unwrapped, not the save's. */
  lemma {:induction false} FailedSaveReadFailurePassesThrough(dtos: seq<UserHoldingDto>, save: SaveRun, cacheException: Exception, cache: Table)
    requires !save.Commits?
    ensures var r := GetPortfolios(Ok(dtos), save, Throws(cacheException), cache);
      && r.result == Err(cacheException)
      && r.cache == (if save.ThrowsBeforeCommit? then cache else Replace(MapToDomain(dtos)))
  {
  }

  /** Closing the database fails after the save committed: the call still
      goes to the fallback, which now reads the new rows back. For a
      non-empty fetch that is one holding per fetched symbol, the last one
      fetched with it, in the scan's order; without repeated symbols it is
      the fetched list up to that order. An empty fetch gives the wrapped
      save exception. */
  lemma {:induction false} LateSaveFailureReadsNewRows(dtos: seq<UserHoldingDto>, saveException: Exception, order: seq<string>, cache: Table)
    requires Enumerates(order, Replace(MapToDomain(dtos)).Keys)
    ensures var r := GetPortfolios(Ok(dtos), ThrowsAfterCommit(saveException), Scans(order), cache);
      r.cache == Replace(MapToDomain(dtos))
    ensures var r, mapped := GetPortfolios(Ok(dtos), ThrowsAfterCommit(saveException), Scans(order), cache), MapToDomain(dtos);
      dtos != [] ==>
        && r.result.Ok?
        && |r.result.value| == |Symbols(mapped)|
        && (forall p :: p in r.result.value <==> exists i :: 0 <= i < |mapped| && LastOccurrence(mapped, i) && p == mapped[i])
    ensures var r, mapped := GetPortfolios(Ok(dtos), ThrowsAfterCommit(saveException), Scans(order), cache), MapToDomain(dtos);
      dtos != [] && DistinctSymbols(mapped) ==> r.result.Ok? && multiset(r.result.value) == multiset(mapped)
    ensures var r := GetPortfolios(Ok(dtos), ThrowsAfterCommit(saveException), Scans(order), cache);
      dtos == [] ==> r.result == Err(NoCachedData(saveException))
  {
    var mapped := MapToDomain(dtos);
    SaveReadKeepsLast(mapped, order);
    if DistinctSymbols(mapped) {
      SaveReadRoundTrip(cache, mapped, order);
    }
    if dtos != [] {
      assert mapped[0].symbol in Replace(mapped);
    }
  }
}

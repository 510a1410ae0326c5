/** The local cache: one SQLite table whose primary key is `symbol`,
    abstracted to a map from symbol to the remaining four columns. The
    table is queried without `ORDER BY`, so a read returns its rows in an
    order the database chooses; that order is a parameter here. */
module LocalCache {
  import opened Outcomes
  import opened Domain

  /** The non-key columns of a stored holding. */
  datatype Row = Row(quantity: Int32, ltp: real, avgPrice: real, close: real)

  /** The table's contents, keyed by `symbol`. */
  type Table = map<string, Row>

  /** A value computed together with the table it leaves behind. */
  datatype WithCache<+T> = WithCache(result: T, cache: Table)

  /** The columns written for a holding. */
  function RowOf(p: Portfolio): Row {
    Row(p.quantity, p.ltp, p.avgPrice, p.close)
  }

  /** The holding rebuilt from a stored row, as the read's cursor loop does. */
  function Entry(symbol: string, row: Row): Portfolio {
    Portfolio(symbol, row.quantity, row.ltp, row.avgPrice, row.close)
  }

  /** Storing a holding and reading it back gives the same holding. */
  lemma {:induction false} EntryRowOf(p: Portfolio)
    ensures Entry(p.symbol, RowOf(p)) == p
  {
  }

  /** The symbols that occur in a list of holdings. */
  function Symbols(ps: seq<Portfolio>): set<string> {
    set i | 0 <= i < |ps| :: ps[i].symbol
  }

  /** `ps[i]` is the last holding of the list with its symbol. */
  predicate LastOccurrence(ps: seq<Portfolio>, i: int)
    requires 0 <= i < |ps|
  {
    forall j :: i < j < |ps| ==> ps[j].symbol != ps[i].symbol
  }

  /** No symbol occurs twice in the list. */
  predicate DistinctSymbols(ps: seq<Portfolio>) {
    forall i, j :: 0 <= i < j < |ps| ==> ps[i].symbol != ps[j].symbol
  }

  /** The inserts of `savePortfolios`, one per holding in list order, each
      replacing any row already stored under the same symbol. The
      resulting keys are the old keys plus the inserted symbols, rows with
      other symbols are untouched, and a symbol inserted several times
      keeps its last holding. */
  function InsertAll(t: Table, ps: seq<Portfolio>): (r: Table)
    ensures r.Keys == t.Keys + Symbols(ps)
    ensures forall k :: k in t && k !in Symbols(ps) ==> r[k] == t[k]
    ensures forall i :: 0 <= i < |ps| && LastOccurrence(ps, i) ==> r[ps[i].symbol] == RowOf(ps[i])
    decreases |ps|
  {
    if ps == [] then t
    else
      var n := |ps| - 1;
      assert ps[..n] + [ps[n]] == ps;
      var r0 := InsertAll(t, ps[..n]);
      InsertStep(t, ps[..n], ps[n], r0);
      r0[ps[n].symbol := RowOf(ps[n])]
  }

  /** One more insert keeps the contract of `InsertAll`. */
  lemma {:induction false} InsertStep(t: Table, ps: seq<Portfolio>, p: Portfolio, r0: Table)
    requires r0.Keys == t.Keys + Symbols(ps)
    requires forall k :: k in t && k !in Symbols(ps) ==> r0[k] == t[k]
    requires forall i :: 0 <= i < |ps| && LastOccurrence(ps, i) ==> r0[ps[i].symbol] == RowOf(ps[i])
    ensures var r, qs := r0[p.symbol := RowOf(p)], ps + [p];
      && r.Keys == t.Keys + Symbols(qs)
      && (forall k :: k in t && k !in Symbols(qs) ==> r[k] == t[k])
      && (forall i :: 0 <= i < |qs| && LastOccurrence(qs, i) ==> r[qs[i].symbol] == RowOf(qs[i]))
  {
    var r, qs := r0[p.symbol := RowOf(p)], ps + [p];
    SymbolsSnoc(ps, p);
    forall k | k in t && k !in Symbols(qs)
      ensures r[k] == t[k]
    {
      assert k != p.symbol && k !in Symbols(ps);
    }
    forall i | 0 <= i < |qs| && LastOccurrence(qs, i)
      ensures r[qs[i].symbol] == RowOf(qs[i])
    {
      if i < |ps| {
        assert qs[|ps|] == p;
        assert qs[i] == ps[i];
        assert ps[i].symbol != p.symbol;
        assert LastOccurrence(ps, i) by {
          forall j | i < j < |ps|
            ensures ps[j].symbol != ps[i].symbol
          {
            assert qs[j] == ps[j];
          }
        }
      }
    }
  }

  /** Appending a holding adds its symbol. */
  lemma {:induction false} SymbolsSnoc(ps: seq<Portfolio>, p: Portfolio)
    ensures Symbols(ps + [p]) == Symbols(ps) + {p.symbol}
  {
    var qs := ps + [p];
    assert forall i :: 0 <= i < |ps| ==> qs[i] == ps[i];
    assert qs[|ps|] == p;
  }

  /** The table left by a committed `savePortfolios`: every row deleted,
      then the holdings inserted. Its keys are exactly the saved symbols,
      so no earlier row survives unless its symbol was saved again, and
      among duplicates the later holding wins. */
  function Replace(ps: seq<Portfolio>): (t: Table)
    ensures t.Keys == Symbols(ps)
    ensures forall i :: 0 <= i < |ps| && LastOccurrence(ps, i) ==> t[ps[i].symbol] == RowOf(ps[i])
  {
    InsertAll(map[], ps)
  }

  /** How a call of `savePortfolios` ends: normally; by an exception before
      the transaction is marked successful (the transaction rolls back); or
      by an exception from closing the database after the transaction has
      committed. */
  datatype SaveRun = Commits | ThrowsBeforeCommit(error: Exception) | ThrowsAfterCommit(error: Exception)

  /** `savePortfolios(ps)` run against table `t`. It reports success only
      when it ends normally. A failure before the commit leaves the table
      as it was; otherwise, even when closing the database then throws,
      the table is replaced wholesale by the saved holdings. */
  function Save(t: Table, ps: seq<Portfolio>, run: SaveRun): (r: WithCache<Outcome<()>>)
    ensures r.result.Ok? <==> run.Commits?
    ensures !run.Commits? ==> r.result == Err(run.error)
    ensures r.cache == t || r.cache == Replace(ps)
    ensures run.ThrowsBeforeCommit? ==> r.cache == t
    ensures !run.ThrowsBeforeCommit? ==> r.cache == Replace(ps)
    ensures r.result.Ok? ==> r.cache.Keys == Symbols(ps)
  {
    match run
    case Commits => WithCache(Ok(()), Replace(ps))
    case ThrowsBeforeCommit(e) => WithCache(Err(e), t)
    case ThrowsAfterCommit(e) => WithCache(Err(e), Replace(ps))
  }

  /** How a call of `getPortfolios` on the cache ends: the cursor visits the
      rows in `order`, or the query throws. */
  datatype ReadRun = Scans(order: seq<string>) | Throws(error: Exception)

  /** `order` lists every key of the table exactly once. */
  predicate Enumerates(order: seq<string>, keys: set<string>) {
    && (forall k :: k in keys ==> k in order)
    && (forall i :: 0 <= i < |order| ==> order[i] in keys)
    && (forall i, j :: 0 <= i < j < |order| ==> order[i] != order[j])
  }

  /** A scan the database could perform on table `t`. */
  predicate ReadFits(run: ReadRun, t: Table) {
    run.Scans? ==> Enumerates(run.order, t.Keys)
  }

  /** The holdings the cursor loop builds, one per visited key. */
  function Rows(t: Table, order: seq<string>): (ps: seq<Portfolio>)
    requires forall k :: k in order ==> k in t
    ensures |ps| == |order|
    ensures forall i :: 0 <= i < |order| ==> ps[i] == Entry(order[i], t[order[i]])
  {
    seq(|order|, i requires 0 <= i < |order| => Entry(order[i], t[order[i]]))
  }

  /** A list without repeated elements has as many elements as its set. */
  lemma {:induction false} DistinctCardinality(order: seq<string>)
    requires forall i, j :: 0 <= i < j < |order| ==> order[i] != order[j]
    ensures |set k | k in order| == |order|
  {
    if order != [] {
      var rest := order[1..];
      DistinctCardinality(rest);
      assert (set k | k in order) == (set k | k in rest) + {order[0]};
      assert order[0] !in rest;
    }
  }

  /** `getPortfolios` on the cache: either the query's exception, or one
      holding per stored row, with its five fields equal to the stored
      ones, and no two holdings with the same symbol. */
  function Read(t: Table, run: ReadRun): (r: Outcome<seq<Portfolio>>)
    requires ReadFits(run, t)
    ensures run.Throws? ==> r == Err(run.error)
    ensures run.Scans? ==> r.Ok?
    ensures r.Ok? ==> |r.value| == |t|
    ensures r.Ok? ==> forall p :: p in r.value <==> p.symbol in t && t[p.symbol] == RowOf(p)
    ensures r.Ok? ==> DistinctSymbols(r.value)
  {
    match run
    case Throws(e) => Err(e)
    case Scans(order) =>
      var ps := Rows(t, order);
      DistinctCardinality(order);
      assert (set k | k in order) == t.Keys;
      assert forall p :: p in ps ==> p.symbol in t && t[p.symbol] == RowOf(p);
      assert forall p: Portfolio :: p.symbol in t && t[p.symbol] == RowOf(p) ==> p in ps by {
        forall p: Portfolio | p.symbol in t && t[p.symbol] == RowOf(p)
          ensures p in ps
        {
          var i :| 0 <= i < |order| && order[i] == p.symbol;
          assert ps[i] == p;
        }
      }
      Ok(ps)
  }

  /** The symbols of a list of holdings, in list order. */
  function SymbolOrder(ps: seq<Portfolio>): (o: seq<string>)
    ensures |o| == |ps|
    ensures forall i :: 0 <= i < |ps| ==> o[i] == ps[i].symbol
  {
    seq(|ps|, i requires 0 <= i < |ps| => ps[i].symbol)
  }

  /** In a list without repeats every element occurs once. */
  lemma {:induction false} DistinctOccurrences(o: seq<string>)
    requires forall i, j :: 0 <= i < j < |o| ==> o[i] != o[j]
    ensures forall x :: multiset(o)[x] == if x in o then 1 else 0
  {
    if o != [] {
      var rest := o[1..];
      assert o == [o[0]] + rest;
      DistinctOccurrences(rest);
      assert o[0] !in rest;
    }
  }

  /** Two scans of the same table visit the same keys, possibly in
      different orders. */
  lemma {:induction false} ScansArePermutations(o1: seq<string>, o2: seq<string>, keys: set<string>)
    requires Enumerates(o1, keys) && Enumerates(o2, keys)
    ensures multiset(o1) == multiset(o2)
  {
    DistinctOccurrences(o1);
    DistinctOccurrences(o2);
    assert forall x :: multiset(o1)[x] == multiset(o2)[x];
  }

  /** The rows of a scan are the rows of the scan without position `i`,
      plus the row of the key at `i`. */
  lemma {:induction false} RowsSplitAt(t: Table, o: seq<string>, i: int)
    requires forall k :: k in o ==> k in t
    requires 0 <= i < |o|
    ensures multiset(Rows(t, o)) == multiset(Rows(t, o[..i] + o[i + 1..])) + multiset{Entry(o[i], t[o[i]])}
  {
    var rs := Rows(t, o);
    assert Rows(t, o[..i] + o[i + 1..]) == rs[..i] + rs[i + 1..];
    assert rs == rs[..i] + [rs[i]] + rs[i + 1..];
  }

  /** Removing the same key from two permuted scans leaves permuted scans. */
  lemma {:induction false} RemoveFromBoth(o1: seq<string>, o2: seq<string>, i: int)
    requires multiset(o1) == multiset(o2)
    requires o1 != [] && 0 <= i < |o2| && o2[i] == o1[0]
    ensures multiset(o1[1..]) == multiset(o2[..i] + o2[i + 1..])
  {
    assert o1 == [o1[0]] + o1[1..];
    assert o2 == o2[..i] + [o2[i]] + o2[i + 1..];
    assert multiset(o1[1..]) == multiset(o1) - multiset{o1[0]};
    assert multiset(o2[..i] + o2[i + 1..]) == multiset(o2) - multiset{o2[i]};
  }

  /** Permuting the visited keys permutes the rows read. */
  lemma {:induction false} RowsPermute(t: Table, o1: seq<string>, o2: seq<string>)
    requires forall k :: k in o1 ==> k in t
    requires forall k :: k in o2 ==> k in t
    requires multiset(o1) == multiset(o2)
    ensures multiset(Rows(t, o1)) == multiset(Rows(t, o2))
  {
    if o1 != [] {
      assert o1[0] in multiset(o2);
      var i :| 0 <= i < |o2| && o2[i] == o1[0];
      RemoveFromBoth(o1, o2, i);
      var r2 := o2[..i] + o2[i + 1..];
      assert forall k :: k in r2 ==> k in o2;
      RowsPermute(t, o1[1..], r2);
      RowsSplitAt(t, o1, 0);
      assert o1[..0] + o1[1..] == o1[1..];
      RowsSplitAt(t, o2, i);
    }
  }

  /** Saving a list without repeated symbols and reading it back returns
      the same holdings, in whatever order the scan visits them. */
  lemma {:induction false} SaveReadRoundTrip(t: Table, ps: seq<Portfolio>, order: seq<string>)
    requires DistinctSymbols(ps)
    requires ReadFits(Scans(order), Replace(ps))
    ensures Save(t, ps, Commits).cache == Replace(ps)
    ensures Read(Replace(ps), Scans(order)).Ok?
    ensures multiset(Read(Replace(ps), Scans(order)).value) == multiset(ps)
  {
    var stored := Replace(ps);
    var own := SymbolOrder(ps);
    assert Enumerates(own, stored.Keys) by {
      forall k | k in stored.Keys
        ensures k in own
      {
        var i :| 0 <= i < |ps| && ps[i].symbol == k;
        assert own[i] == k;
      }
    }
    assert Rows(stored, own) == ps by {
      forall i | 0 <= i < |ps|
        ensures Rows(stored, own)[i] == ps[i]
      {
        assert LastOccurrence(ps, i);
        EntryRowOf(ps[i]);
      }
    }
    ScansArePermutations(order, own, stored.Keys);
    RowsPermute(stored, order, own);
  }

  /** With repeated symbols, a read after a committed save returns exactly
      the last holding saved under each symbol. */
  lemma {:induction false} SaveReadKeepsLast(ps: seq<Portfolio>, order: seq<string>)
    requires ReadFits(Scans(order), Replace(ps))
    ensures Read(Replace(ps), Scans(order)).Ok?
    ensures |Read(Replace(ps), Scans(order)).value| == |Symbols(ps)|
    ensures forall p :: p in Read(Replace(ps), Scans(order)).value <==>
      exists i :: 0 <= i < |ps| && LastOccurrence(ps, i) && p == ps[i]
  {
    var stored := Replace(ps);
    var rows := Read(stored, Scans(order)).value;
    forall p | p in rows
      ensures exists i :: 0 <= i < |ps| && LastOccurrence(ps, i) && p == ps[i]
    {
      var i := LastIndex(ps, p.symbol);
      EntryRowOf(ps[i]);
      assert p == Entry(p.symbol, stored[p.symbol]);
    }
  }

  /** The position of the last holding with symbol `k`. */
  function LastIndex(ps: seq<Portfolio>, k: string): (i: int)
    requires k in Symbols(ps)
    ensures 0 <= i < |ps| && ps[i].symbol == k && LastOccurrence(ps, i)
  {
    var n := |ps| - 1;
    if ps[n].symbol == k then n
    else
      SymbolsSnoc(ps[..n], ps[n]);
      assert ps[..n] + [ps[n]] == ps;
      LastIndex(ps[..n], k)
  }
}

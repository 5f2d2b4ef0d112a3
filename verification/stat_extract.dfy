/**
 The statistics extraction behind powa_stat_user_functions and
 powa_stat_all_rel: read the per-function or per-relation counters of any
 database, although the statistics collector hands a backend detailed
 counters only for the database it is connected to.

 The backend's process-wide state (MyDatabaseId and the cached statistics
 view) lives in the class Backend, whose Extract method performs the
 clear / override / fetch / restore / clear sequence. The statistics file is
 a parameter: a read-only map from database id to that database's counters.
 */
module StatExtract {
  import opened Wrappers

  /** An object identifier: an unsigned 32-bit integer. */
  type Oid = x: int | 0 <= x < 0x1_0000_0000

  /** The counters of one function. Times are in microseconds. */
  datatype FuncEntry = FuncEntry(functionId: Oid, numCalls: int, totalTime: int, selfTime: int)

  /** The counters of one table or index. A timestamp of 0 means "never". */
  datatype TabEntry = TabEntry(
    tableId: Oid,
    numScans: int,
    tuplesReturned: int,
    tuplesFetched: int,
    tuplesInserted: int,
    tuplesUpdated: int,
    tuplesDeleted: int,
    tuplesHotUpdated: int,
    liveTuples: int,
    deadTuples: int,
    changesSinceAnalyze: int,
    blocksFetched: int,
    blocksHit: int,
    vacuumTimestamp: int,
    vacuumCount: int,
    autovacVacuumTimestamp: int,
    autovacVacuumCount: int,
    analyzeTimestamp: int,
    analyzeCount: int,
    autovacAnalyzeTimestamp: int,
    autovacAnalyzeCount: int)

  /** What the statistics file holds for one database. Hash iteration order
      is not modelled: the tables are sequences in some order. */
  datatype DbStats = DbStats(functions: seq<FuncEntry>, tables: seq<TabEntry>)

  /** A database entry as the statistics collector hands it to a backend:
      its function and table hashes are NULL unless they were read. */
  datatype DbEntry = DbEntry(functions: Option<seq<FuncEntry>>, tables: Option<seq<TabEntry>>)

  /** The statistics a backend has read and keeps until it clears them:
      every database's entry, with hashes only for the database the backend
      was connected to when it read them. */
  datatype StatsView = StatsView(loadedFor: Oid, entries: map<Oid, DbEntry>)

  datatype StatKind = FunctionStats | TableStats

  /** A column value; Float8 carries the exact quotient that the source
      computes in double precision. */
  datatype Datum = ObjectId(oid: Oid) | Int8(n: int) | Float8(x: real) | TimestampTz(t: int)

  /** A result row: one value per column, None for SQL NULL. */
  type Row = seq<Option<Datum>>

  const FunctionColumns: nat := 4
  const RelationColumns: nat := 21

  /** Positions of the relation columns that are not plain counters. */
  const BlocksReadColumn: nat := 11
  const LastVacuumColumn: nat := 13
  const LastAutovacuumColumn: nat := 15
  const LastAnalyzeColumn: nat := 17
  const LastAutoanalyzeColumn: nat := 19
  const TimestampColumns: set<nat> :=
    {LastVacuumColumn, LastAutovacuumColumn, LastAnalyzeColumn, LastAutoanalyzeColumn}

  /** The statistics a backend connected to current reads from the file. */
  function LoadView(store: map<Oid, DbStats>, current: Oid): (view: StatsView)
    ensures view.loadedFor == current && view.entries.Keys == store.Keys
    ensures forall d :: d in view.entries ==>
              (view.entries[d].functions.Some? <==> d == current) &&
              (view.entries[d].tables.Some? <==> d == current)
    ensures current in store ==>
              view.entries[current] == DbEntry(Some(store[current].functions), Some(store[current].tables))
  {
    StatsView(current, map d | d in store ::
      if d == current then DbEntry(Some(store[d].functions), Some(store[d].tables))
      else DbEntry(None, None))
  }

  /** pgstat_fetch_stat_dbentry's answer from a view: NULL when the database has no entry. */
  function Lookup(view: StatsView, dbid: Oid): Option<DbEntry>
  {
    if dbid in view.entries then Some(view.entries[dbid]) else None
  }

  /** A time in microseconds as the milliseconds the function rows report. */
  function Millis(us: int): (ms: real)
    ensures ms * 1000.0 == us as real
  {
    us as real / 1000.0
  }

  /** The 4-column row of one function. */
  function FunctionRow(e: FuncEntry): (row: Row)
    ensures |row| == FunctionColumns
    ensures forall k :: 0 <= k < |row| ==> row[k].Some?
    ensures row[0] == Some(ObjectId(e.functionId)) && row[1] == Some(Int8(e.numCalls))
    ensures row[2].value.Float8? && row[2].value.x * 1000.0 == e.totalTime as real
    ensures row[3].value.Float8? && row[3].value.x * 1000.0 == e.selfTime as real
  {
    [Some(ObjectId(e.functionId)), Some(Int8(e.numCalls)),
     Some(Float8(Millis(e.totalTime))), Some(Float8(Millis(e.selfTime)))]
  }

  /** A timestamp column: NULL for the "never" value 0, the timestamp itself otherwise. */
  function TimestampDatum(t: int): (c: Option<Datum>)
    ensures c.None? <==> t == 0
    ensures t != 0 ==> c == Some(TimestampTz(t))
  {
    if t == 0 then None else Some(TimestampTz(t))
  }

  /** The 21-column row of one table or index. */
  function RelationRow(e: TabEntry): (row: Row)
    ensures |row| == RelationColumns
    ensures row[0] == Some(ObjectId(e.tableId))
    ensures row[BlocksReadColumn] == Some(Int8(e.blocksFetched - e.blocksHit))
    ensures row[BlocksReadColumn + 1] == Some(Int8(e.blocksHit))
    ensures forall k :: 0 <= k < RelationColumns && k !in TimestampColumns ==> row[k].Some?
    ensures row[LastVacuumColumn].None? <==> e.vacuumTimestamp == 0
    ensures row[LastAutovacuumColumn].None? <==> e.autovacVacuumTimestamp == 0
    ensures row[LastAnalyzeColumn].None? <==> e.analyzeTimestamp == 0
    ensures row[LastAutoanalyzeColumn].None? <==> e.autovacAnalyzeTimestamp == 0
  {
    [ Some(ObjectId(e.tableId)),
      Some(Int8(e.numScans)),
      Some(Int8(e.tuplesReturned)),
      Some(Int8(e.tuplesFetched)),
      Some(Int8(e.tuplesInserted)),
      Some(Int8(e.tuplesUpdated)),
      Some(Int8(e.tuplesDeleted)),
      Some(Int8(e.tuplesHotUpdated)),
      Some(Int8(e.liveTuples)),
      Some(Int8(e.deadTuples)),
      Some(Int8(e.changesSinceAnalyze)),
      Some(Int8(e.blocksFetched - e.blocksHit)),
      Some(Int8(e.blocksHit)),
      TimestampDatum(e.vacuumTimestamp),
      Some(Int8(e.vacuumCount)),
      TimestampDatum(e.autovacVacuumTimestamp),
      Some(Int8(e.autovacVacuumCount)),
      TimestampDatum(e.analyzeTimestamp),
      Some(Int8(e.analyzeCount)),
      TimestampDatum(e.autovacAnalyzeTimestamp),
      Some(Int8(e.autovacAnalyzeCount)) ]
  }

  /** Reading a row back: what a consumer of the result can recover. */
  function AsOid(c: Option<Datum>): Option<Oid>
  {
    if c.Some? && c.value.ObjectId? then Some(c.value.oid) else None
  }

  function AsInt(c: Option<Datum>): Option<int>
  {
    if c.Some? && c.value.Int8? then Some(c.value.n) else None
  }

  /** A time column in milliseconds back as whole microseconds; a value
      that is not a whole number of microseconds is not one FunctionRow wrote. */
  function AsMicros(c: Option<Datum>): Option<int>
  {
    if c.Some? && c.value.Float8? && (c.value.x * 1000.0).Floor as real == c.value.x * 1000.0
    then Some((c.value.x * 1000.0).Floor)
    else None
  }

  function AsTimestamp(c: Option<Datum>): Option<int>
  {
    if c.None? then Some(0)
    else if c.value.TimestampTz? && c.value.t != 0 then Some(c.value.t)
    else None
  }

  function DecodeFunctionRow(row: Row): Option<FuncEntry>
  {
    if |row| == FunctionColumns
       && AsOid(row[0]).Some? && AsInt(row[1]).Some? && AsMicros(row[2]).Some? && AsMicros(row[3]).Some?
    then Some(FuncEntry(AsOid(row[0]).value, AsInt(row[1]).value, AsMicros(row[2]).value, AsMicros(row[3]).value))
    else None
  }

  function DecodeRelationRow(row: Row): Option<TabEntry>
  {
    if |row| == RelationColumns && AsOid(row[0]).Some?
       && (forall k :: 1 <= k < RelationColumns && k !in TimestampColumns ==> AsInt(row[k]).Some?)
       && (forall k :: k in TimestampColumns ==> k < |row| && AsTimestamp(row[k]).Some?)
    then Some(TabEntry(
      AsOid(row[0]).value,
      AsInt(row[1]).value, AsInt(row[2]).value, AsInt(row[3]).value, AsInt(row[4]).value,
      AsInt(row[5]).value, AsInt(row[6]).value, AsInt(row[7]).value, AsInt(row[8]).value,
      AsInt(row[9]).value, AsInt(row[10]).value,
      AsInt(row[BlocksReadColumn]).value + AsInt(row[BlocksReadColumn + 1]).value,
      AsInt(row[BlocksReadColumn + 1]).value,
      AsTimestamp(row[LastVacuumColumn]).value, AsInt(row[LastVacuumColumn + 1]).value,
      AsTimestamp(row[LastAutovacuumColumn]).value, AsInt(row[LastAutovacuumColumn + 1]).value,
      AsTimestamp(row[LastAnalyzeColumn]).value, AsInt(row[LastAnalyzeColumn + 1]).value,
      AsTimestamp(row[LastAutoanalyzeColumn]).value, AsInt(row[LastAutoanalyzeColumn + 1]).value))
    else None
  }

  /** A function row carries its entry's counters unchanged: nothing is lost. */
  lemma FunctionRowRoundTrip(e: FuncEntry)
    ensures DecodeFunctionRow(FunctionRow(e)) == Some(e)
  {
    var row := FunctionRow(e);
    assert (Millis(e.totalTime) * 1000.0).Floor == e.totalTime;
    assert (Millis(e.selfTime) * 1000.0).Floor == e.selfTime;
  }

  /** Decoding fixes every cell of a function row: a row that reads back as e
      is exactly the row written for e. */
  lemma FunctionRowDecodeExact(row: Row, e: FuncEntry)
    requires DecodeFunctionRow(row) == Some(e)
    ensures row == FunctionRow(e)
  {
  }

  /** A relation row carries its entry's counters: blocks_fetched comes back
      as blocks_read + blocks_hit, and a NULL timestamp as 0. */
  lemma RelationRowRoundTrip(e: TabEntry)
    ensures DecodeRelationRow(RelationRow(e)) == Some(e)
  {
    var row := RelationRow(e);
    assert forall k :: 1 <= k < RelationColumns && k !in TimestampColumns ==> AsInt(row[k]).Some?;
    assert forall k :: k in TimestampColumns ==> k < |row| && AsTimestamp(row[k]).Some?;
  }

  function FunctionRowsOf(entries: seq<FuncEntry>): (rows: seq<Row>)
    ensures |rows| == |entries|
  {
    seq(|entries|, i requires 0 <= i < |entries| => FunctionRow(entries[i]))
  }

  function RelationRowsOf(entries: seq<TabEntry>): (rows: seq<Row>)
    ensures |rows| == |entries|
  {
    seq(|entries|, i requires 0 <= i < |entries| => RelationRow(entries[i]))
  }

  /** What a call should return: one row per function, or per table, that the
      statistics file holds for dbid; no row when it holds nothing for dbid. */
  function Expected(store: map<Oid, DbStats>, dbid: Oid, kind: StatKind): seq<Row>
  {
    if dbid !in store then []
    else match kind
      case FunctionStats => FunctionRowsOf(store[dbid].functions)
      case TableStats => RelationRowsOf(store[dbid].tables)
  }

  /** The rows built from a fetched entry. Both kinds are guarded by the
      function hash being present, the table kind included. */
  function RowsFor(entry: Option<DbEntry>, kind: StatKind): (rows: seq<Row>)
    requires kind == TableStats && entry.Some? && entry.value.functions.Some? ==> entry.value.tables.Some?
    ensures entry.None? || entry.value.functions.None? ==> rows == []
    ensures entry.Some? && entry.value.functions.Some? && kind == FunctionStats ==>
              var fs := entry.value.functions.value;
              |rows| == |fs| && forall i :: 0 <= i < |fs| ==> rows[i] == FunctionRow(fs[i])
    ensures entry.Some? && entry.value.functions.Some? && kind == TableStats ==>
              var ts := entry.value.tables.value;
              |rows| == |ts| && forall i :: 0 <= i < |ts| ==> rows[i] == RelationRow(ts[i])
  {
    if entry.Some? && entry.value.functions.Some? then
      match kind
      case FunctionStats => FunctionRowsOf(entry.value.functions.value)
      case TableStats => RelationRowsOf(entry.value.tables.value)
    else []
  }

  /** With the override, the freshly read view yields exactly the target's rows. */
  lemma OverrideReadsTarget(store: map<Oid, DbStats>, dbid: Oid, kind: StatKind)
    ensures RowsFor(Lookup(LoadView(store, dbid), dbid), kind) == Expected(store, dbid, kind)
  {
  }

  /** Without the override, a view read while connected to another database
      yields no row for dbid at all, whatever the file holds. */
  lemma HomeViewHidesOtherDatabases(store: map<Oid, DbStats>, home: Oid, dbid: Oid, kind: StatKind)
    requires home != dbid
    ensures RowsFor(Lookup(LoadView(store, home), dbid), kind) == []
  {
  }

  /** The table kind yields nothing when the function hash is NULL, even when
      the table hash is present and not empty. */
  lemma TableRowsGuardedByFunctionHash(tables: seq<TabEntry>)
    requires tables != []
    ensures RowsFor(Some(DbEntry(None, Some(tables))), TableStats) == []
  {
  }

  /** Every row of a result reads back as the entry of the requested database
      at the same position: no row comes from another database. */
  lemma ExpectedRowsAreTargetEntries(store: map<Oid, DbStats>, dbid: Oid)
    requires dbid in store
    ensures forall i :: 0 <= i < |store[dbid].functions| ==>
              DecodeFunctionRow(Expected(store, dbid, FunctionStats)[i]) == Some(store[dbid].functions[i])
    ensures forall i :: 0 <= i < |store[dbid].tables| ==>
              DecodeRelationRow(Expected(store, dbid, TableStats)[i]) == Some(store[dbid].tables[i])
  {
    forall i | 0 <= i < |store[dbid].functions|
      ensures DecodeFunctionRow(Expected(store, dbid, FunctionStats)[i]) == Some(store[dbid].functions[i])
    {
      FunctionRowRoundTrip(store[dbid].functions[i]);
    }
    forall i | 0 <= i < |store[dbid].tables|
      ensures DecodeRelationRow(Expected(store, dbid, TableStats)[i]) == Some(store[dbid].tables[i])
    {
      RelationRowRoundTrip(store[dbid].tables[i]);
    }
  }

  /** The loop over the function hash: one row per entry, appended in turn. */
  method PutFunctionRows(entries: seq<FuncEntry>) returns (rows: seq<Row>)
    ensures |rows| == |entries|
    ensures forall i :: 0 <= i < |entries| ==> rows[i] == FunctionRow(entries[i])
  {
    rows := [];
    var i := 0;
    while i < |entries|
      invariant 0 <= i <= |entries| && |rows| == i
      invariant forall j :: 0 <= j < i ==> rows[j] == FunctionRow(entries[j])
    {
      rows := rows + [FunctionRow(entries[i])];
      i := i + 1;
    }
  }

  /** The loop over the table hash: one row per entry, appended in turn. */
  method PutRelationRows(entries: seq<TabEntry>) returns (rows: seq<Row>)
    ensures |rows| == |entries|
    ensures forall i :: 0 <= i < |entries| ==> rows[i] == RelationRow(entries[i])
  {
    rows := [];
    var i := 0;
    while i < |entries|
      invariant 0 <= i <= |entries| && |rows| == i
      invariant forall j :: 0 <= j < i ==> rows[j] == RelationRow(entries[j])
    {
      rows := rows + [RelationRow(entries[i])];
      i := i + 1;
    }
  }

  /** The node the caller passes as its result information. */
  datatype ResultInfo = NoResultInfo | OtherNode | ReturnSetInfo(allowsMaterialize: bool)

  /** The calling context: its result information, and whether the declared
      result type of the function is a row type. */
  datatype CallContext = CallContext(resultInfo: ResultInfo, returnsRowType: bool)

  datatype CallError =
    | SetNotAccepted          // the caller cannot take a set as the result
    | MaterializeNotAllowed   // the caller takes sets but not in materialize mode
    | ReturnTypeNotRow        // the declared result type is not composite

  /** The errors raised before any statistics are touched, in the order they are checked. */
  function ContextError(ctx: CallContext): (err: Option<CallError>)
    ensures err.None? <==> ctx.resultInfo == ReturnSetInfo(true) && ctx.returnsRowType
    ensures err == Some(SetNotAccepted) <==> !ctx.resultInfo.ReturnSetInfo?
    ensures err == Some(MaterializeNotAllowed) <==> ctx.resultInfo == ReturnSetInfo(false)
  {
    if !ctx.resultInfo.ReturnSetInfo? then Some(SetNotAccepted)
    else if !ctx.resultInfo.allowsMaterialize then Some(MaterializeNotAllowed)
    else if !ctx.returnsRowType then Some(ReturnTypeNotRow)
    else None
  }

  /** A call into the statistics collector, with the MyDatabaseId in force when it was made. */
  datatype PgstatCall = Cleared(asDatabase: Oid) | Fetched(dbid: Oid, asDatabase: Oid)

  /** The process-wide state of one backend that the extraction touches. */
  class Backend {
    var myDatabaseId: Oid
    var statsCache: Option<StatsView>
    ghost var pgstatCalls: seq<PgstatCall>

    /** A backend connected to the database home, with nothing read yet. */
    constructor (home: Oid)
      ensures myDatabaseId == home && statsCache == None && pgstatCalls == []
    {
      myDatabaseId := home;
      statsCache := None;
      pgstatCalls := [];
    }

    /** pgstat_clear_snapshot: forget the statistics read so far. */
    method ClearSnapshot()
      modifies this`statsCache, this`pgstatCalls
      ensures statsCache == None
      ensures pgstatCalls == old(pgstatCalls) + [Cleared(myDatabaseId)]
    {
      statsCache := None;
      pgstatCalls := pgstatCalls + [Cleared(myDatabaseId)];
    }

    /** pgstat_fetch_stat_dbentry: read the statistics for the current
        database unless some are cached, then look dbid up in them. */
    method FetchDbEntry(store: map<Oid, DbStats>, dbid: Oid) returns (entry: Option<DbEntry>)
      modifies this`statsCache, this`pgstatCalls
      ensures old(statsCache).Some? ==> statsCache == old(statsCache)
      ensures old(statsCache).None? ==> statsCache == Some(LoadView(store, myDatabaseId))
      ensures entry == Lookup(statsCache.value, dbid)
      ensures pgstatCalls == old(pgstatCalls) + [Fetched(dbid, myDatabaseId)]
    {
      if statsCache.None? {
        statsCache := Some(LoadView(store, myDatabaseId));
      }
      entry := Lookup(statsCache.value, dbid);
      pgstatCalls := pgstatCalls + [Fetched(dbid, myDatabaseId)];
    }

    /** powa_stat_common: the counters of kind for the database dbid. On
        success MyDatabaseId is back to its value on entry, it was dbid only
        for the fetch, and the cache is cleared before and after. */
    method Extract(store: map<Oid, DbStats>, ctx: CallContext, dbid: Oid, kind: StatKind)
      returns (result: Result<seq<Row>, CallError>)
      modifies this
      ensures myDatabaseId == old(myDatabaseId)
      ensures ContextError(ctx).Some? ==> result == Failure(ContextError(ctx).value) && unchanged(this)
      ensures ContextError(ctx).None? ==> result == Success(Expected(store, dbid, kind))
      ensures ContextError(ctx).None? ==> statsCache == None
      ensures ContextError(ctx).None? ==>
                pgstatCalls == old(pgstatCalls) + [Cleared(old(myDatabaseId)), Fetched(dbid, dbid), Cleared(old(myDatabaseId))]
    {
      var err := ContextError(ctx);
      if err.Some? {
        return Failure(err.value);
      }

      ClearSnapshot();
      var backendDbid := myDatabaseId;
      myDatabaseId := dbid;
      var entry := FetchDbEntry(store, dbid);
      myDatabaseId := backendDbid;

      var rows: seq<Row> := [];
      if entry.Some? && entry.value.functions.Some? {
        match kind {
          case FunctionStats =>
            rows := PutFunctionRows(entry.value.functions.value);
          case TableStats =>
            rows := PutRelationRows(entry.value.tables.value);
        }
      }
      assert rows == RowsFor(entry, kind);
      OverrideReadsTarget(store, dbid, kind);

      ClearSnapshot();
      result := Success(rows);
    }

    /** powa_stat_user_functions: the function counters of dbid. */
    method StatUserFunctions(store: map<Oid, DbStats>, ctx: CallContext, dbid: Oid)
      returns (result: Result<seq<Row>, CallError>)
      modifies this
      ensures myDatabaseId == old(myDatabaseId)
      ensures ContextError(ctx).Some? ==> result == Failure(ContextError(ctx).value) && unchanged(this)
      ensures ContextError(ctx).None? ==> statsCache == None
      ensures ContextError(ctx).None? ==> result == Success(Expected(store, dbid, FunctionStats))
      ensures ContextError(ctx).None? ==> result.Success? && |result.value| == (if dbid in store then |store[dbid].functions| else 0)
      ensures result.Success? ==> forall i :: 0 <= i < |result.value| ==>
                |result.value[i]| == FunctionColumns && DecodeFunctionRow(result.value[i]) == Some(store[dbid].functions[i])
    {
      result := Extract(store, ctx, dbid, FunctionStats);
      if dbid in store {
        ExpectedRowsAreTargetEntries(store, dbid);
      }
    }

    /** powa_stat_all_rel: the table and index counters of dbid. */
    method StatAllRel(store: map<Oid, DbStats>, ctx: CallContext, dbid: Oid)
      returns (result: Result<seq<Row>, CallError>)
      modifies this
      ensures myDatabaseId == old(myDatabaseId)
      ensures ContextError(ctx).Some? ==> result == Failure(ContextError(ctx).value) && unchanged(this)
      ensures ContextError(ctx).None? ==> statsCache == None
      ensures ContextError(ctx).None? ==> result == Success(Expected(store, dbid, TableStats))
      ensures ContextError(ctx).None? ==> result.Success? && |result.value| == (if dbid in store then |store[dbid].tables| else 0)
      ensures result.Success? ==> forall i :: 0 <= i < |result.value| ==>
                |result.value[i]| == RelationColumns && DecodeRelationRow(result.value[i]) == Some(store[dbid].tables[i])
    {
      result := Extract(store, ctx, dbid, TableStats);
      if dbid in store {
        ExpectedRowsAreTargetEntries(store, dbid);
      }
    }
  }
}

/** The actor-facing side (main.go): configuration validation, request routing, and the
    materialisation of query results. */
module Provider {
  import opened Wrappers
  import opened Strings
  import opened Platform
  import opened Config

  // ---------------------------------------------------------------------------
  // Configuration

  /** The keys a link definition must carry, each with a non-empty value. */
  const RequiredKeys: seq<string> := ["URL", "AccessKeyID", "SecretAccessKey", "S3URL", "DBLocation"]

  /** Go's map index: the value under `k`, or "" when `k` is absent. */
  function Lookup(m: map<string, string>, k: string): string {
    if k in m then m[k] else ""
  }

  /** validateConfig: `None` stands for the fatal log that ends the process. */
  function ValidateConfig(m: map<string, string>): (r: Option<LitestreamConfig>)
    ensures r.Some? <==> forall k :: k in RequiredKeys ==> k in m && m[k] != ""
    ensures r.Some? ==> r.value == LitestreamConfig(Lookup(m, "URL"), Lookup(m, "AccessKeyID"),
                                                    Lookup(m, "SecretAccessKey"), Lookup(m, "DBLocation"),
                                                    Lookup(m, "S3URL"))
  {
    if Lookup(m, "URL") == "" ||
       Lookup(m, "AccessKeyID") == "" ||
       Lookup(m, "SecretAccessKey") == "" ||
       Lookup(m, "S3URL") == "" ||
       Lookup(m, "DBLocation") == ""
    then
      None
    else
      Some(LitestreamConfig(Lookup(m, "URL"), Lookup(m, "AccessKeyID"), Lookup(m, "SecretAccessKey"),
                            Lookup(m, "DBLocation"), Lookup(m, "S3URL")))
  }

  /** A link definition without a replica URL stops the provider before it serves anything. */
  lemma MissingS3URLIsFatal(m: map<string, string>)
    requires "S3URL" !in m || m["S3URL"] == ""
    ensures ValidateConfig(m).None?
  {
    assert "S3URL" in RequiredKeys;
  }

  // ---------------------------------------------------------------------------
  // The SQL engine and the sqldb codec, as the results they produce

  datatype Statement = Statement(sql: string, database: string)
  datatype ExecuteResult = ExecuteResult(rowsAffected: nat)

  /** One value of a scanned row. Floating point is not modelled: a REAL value is kept
      as the decimal text the driver would print for it. */
  datatype Cell = NullCell | IntCell(i: int) | RealAsText(text: string) | TextCell(s: string) | BlobCell(b: Bytes)
  type Row = seq<Cell>

  /** What the driver reports about one result column. */
  datatype ColumnType = ColumnType(name: string, databaseTypeName: string)
  /** A column of a query response. */
  datatype Column = Column(name: string, dbType: string)

  datatype QueryResult = QueryResult(columns: seq<Column>, rows: Bytes, numRows: nat)

  /** Everything one query against the database file yields, step by step: the errors of
      opening it, of running the query and of the cursor, the column types, and the outcome
      of scanning each row the cursor produces, in order. */
  datatype QuerySession = QuerySession(
    openErr: Option<string>,
    queryErr: Option<string>,
    rowsErr: Option<string>,
    columnTypes: Result<seq<ColumnType>, string>,
    scans: seq<Result<Row, string>>)

  /** The SQL engine: execution of a statement, and a query session, on a database file. */
  datatype Engine = Engine(
    execute: (string, string) -> Result<ExecuteResult, string>,  // statement, database file
    query: (string, string) -> QuerySession)                      // statement, database file

  /** The sqldb package: operation tags and the payload codec. */
  datatype Sqldb = Sqldb(
    executeOp: string,
    queryOp: string,
    pingOp: string,
    decodeStatement: Bytes -> (Statement, Option<string>),
    encodeExecuteResponse: Option<ExecuteResult> -> Bytes,
    encodeQueryResponse: Option<QueryResult> -> Bytes,
    encodeRows: (seq<Row>, seq<ColumnType>) -> Result<Bytes, string>)

  /** SQLExecute: the statement runs on the configured file. */
  function SQLExecute(query: string, database: string, dbpath: string, engine: Engine): Result<ExecuteResult, string> {
    engine.execute(query, dbpath)
  }

  /** The request's database name plays no part: two requests differing only in it
      get the same outcome. */
  lemma SQLExecuteIgnoresDatabase(query: string, d1: string, d2: string, dbpath: string, engine: Engine)
    ensures SQLExecute(query, d1, dbpath, engine) == SQLExecute(query, d2, dbpath, engine)
  {
  }

  /** The columns of a response: the driver's columns in order, each type name lower-cased. */
  function Columns(ct: seq<ColumnType>): (cols: seq<Column>)
    ensures |cols| == |ct|
    ensures forall i :: 0 <= i < |ct| ==>
              cols[i].name == ct[i].name && cols[i].dbType == ToLower(ct[i].databaseTypeName)
  {
    if ct == [] then []
    else Columns(ct[..|ct| - 1]) + [Column(ct[|ct| - 1].name, ToLower(ct[|ct| - 1].databaseTypeName))]
  }

  /** All scanned rows, or the error of the first scan that failed. */
  function ScanAll(scans: seq<Result<Row, string>>): (r: Result<seq<Row>, string>)
    ensures r.Success? <==> forall i :: 0 <= i < |scans| ==> scans[i].Success?
    ensures r.Success? ==> |r.value| == |scans| && forall i :: 0 <= i < |scans| ==> scans[i] == Success(r.value[i])
    ensures r.Failure? ==> exists k :: 0 <= k < |scans| && scans[k] == Failure(r.error) &&
                                       forall j :: 0 <= j < k ==> scans[j].Success?
  {
    if scans == [] then Success([])
    else match scans[0]
      case Failure(e) => Failure(e)
      case Success(row) =>
        assert forall i :: 0 < i < |scans| ==> scans[1..][i - 1] == scans[i];
        match ScanAll(scans[1..])
        case Failure(e) => Failure(e)
        case Success(rows) => Success([row] + rows)
  }

  /** The first failing scan decides the error. */
  lemma {:induction false} ScanAllStopsAt(scans: seq<Result<Row, string>>, k: nat)
    requires k < |scans| && scans[k].Failure?
    requires forall j :: 0 <= j < k ==> scans[j].Success?
    ensures ScanAll(scans) == Failure(scans[k].error)
  {
    if k > 0 {
      assert forall j :: 0 <= j < k - 1 ==> scans[1..][j] == scans[j + 1];
      ScanAllStopsAt(scans[1..], k - 1);
    }
  }

  /** What SQLQuery hands back: the pointer and the error of Go's pair. */
  datatype QueryReturn = QueryReturn(result: Option<QueryResult>, err: Option<string>)

  /** The outcome of a query session: the first error among opening, querying, the cursor,
      the column types, the row scans and the row encoding; otherwise the columns, the
      encoded rows and their number. */
  function QueryOutcome(s: QuerySession, codec: Sqldb): (r: QueryReturn)
    // A query yields a result or an error, never both and never neither.
    ensures r.result.Some? <==> r.err.None?
    ensures r.result.Some? ==>
              && s.openErr.None? && s.queryErr.None? && s.rowsErr.None?
              && s.columnTypes.Success?
              && r.result.value.columns == Columns(s.columnTypes.value)
              && (forall i :: 0 <= i < |s.scans| ==> s.scans[i].Success?)
              && r.result.value.numRows == |s.scans|
              && codec.encodeRows(ScanAll(s.scans).value, s.columnTypes.value) == Success(r.result.value.rows)
    // On failure the earliest failing step names the error.
    ensures s.openErr.Some? ==> r.err == s.openErr
    ensures s.openErr.None? && s.queryErr.Some? ==> r.err == s.queryErr
    ensures s.openErr.None? && s.queryErr.None? && s.rowsErr.Some? ==> r.err == s.rowsErr
    ensures s.openErr.None? && s.queryErr.None? && s.rowsErr.None? && s.columnTypes.Failure? ==>
              r.err == Some(s.columnTypes.error)
    ensures s.openErr.None? && s.queryErr.None? && s.rowsErr.None? && s.columnTypes.Success? ==>
              (ScanAll(s.scans).Failure? ==> r.err == Some(ScanAll(s.scans).error)) &&
              (ScanAll(s.scans).Success? && codec.encodeRows(ScanAll(s.scans).value, s.columnTypes.value).Failure? ==>
                 r.err == Some(codec.encodeRows(ScanAll(s.scans).value, s.columnTypes.value).error))
  {
    if s.openErr.Some? then QueryReturn(None, s.openErr)
    else if s.queryErr.Some? then QueryReturn(None, s.queryErr)
    else if s.rowsErr.Some? then QueryReturn(None, s.rowsErr)
    else match s.columnTypes
      case Failure(e) => QueryReturn(None, Some(e))
      case Success(ct) =>
        match ScanAll(s.scans)
        case Failure(e) => QueryReturn(None, Some(e))
        case Success(rows) =>
          match codec.encodeRows(rows, ct)
          case Failure(e) => QueryReturn(None, Some(e))
          case Success(raw) => QueryReturn(Some(QueryResult(Columns(ct), raw, |rows|)), None)
  }

  /** SQLQuery as written: when the cursor reports an error it returns the error variable
      of the previous step, which is nil at that point, so neither a result nor an error. */
  function QueryOutcomeAsWritten(s: QuerySession, codec: Sqldb): (r: QueryReturn)
    ensures s.rowsErr.None? ==> r == QueryOutcome(s, codec)
    ensures s.openErr.None? && s.queryErr.None? && s.rowsErr.Some? ==> r == QueryReturn(None, None)
  {
    if s.openErr.None? && s.queryErr.None? && s.rowsErr.Some? then QueryReturn(None, None)
    else QueryOutcome(s, codec)
  }

  /** A cursor error is swallowed by the code as written: the caller sees no result and no error. */
  lemma RowsErrorSwallowed(codec: Sqldb)
    ensures var s := QuerySession(None, None, Some("database disk image is malformed"), Success([]), []);
            QueryOutcomeAsWritten(s, codec) == QueryReturn(None, None) &&
            QueryOutcome(s, codec) == QueryReturn(None, Some("database disk image is malformed"))
  {
  }

  /** SQLQuery: run a read query, collect its columns, then scan every row, counting them;
      the first error aborts with no result. The database name is unused. */
  method SQLQuery(query: string, database: string, dbpath: string, engine: Engine, codec: Sqldb)
    returns (result: Option<QueryResult>, err: Option<string>)
    ensures QueryReturn(result, err) == QueryOutcome(engine.query(query, dbpath), codec)
  {
    var s := engine.query(query, dbpath);
    if s.openErr.Some? {
      return None, s.openErr;
    }
    if s.queryErr.Some? {
      return None, s.queryErr;
    }
    if s.rowsErr.Some? {
      return None, s.rowsErr;
    }
    if s.columnTypes.Failure? {
      return None, Some(s.columnTypes.error);
    }
    var ct := s.columnTypes.value;

    var cols: seq<Column> := [];
    for i := 0 to |ct|
      invariant cols == Columns(ct[..i])
    {
      assert ct[..i + 1][..i] == ct[..i];
      cols := cols + [Column(ct[i].name, ToLower(ct[i].databaseTypeName))];
    }
    assert ct[..|ct|] == ct;

    var rowCount: nat := 0;
    var allRows: seq<Row> := [];
    for j := 0 to |s.scans|
      invariant rowCount == |allRows| == j
      invariant forall k :: 0 <= k < j ==> s.scans[k] == Success(allRows[k])
    {
      if s.scans[j].Failure? {
        ScanAllStopsAt(s.scans, j);
        return None, Some(s.scans[j].error);
      }
      allRows := allRows + [s.scans[j].value];
      rowCount := rowCount + 1;
    }
    assert forall k :: 0 <= k < |s.scans| ==> s.scans[k].Success?;
    ghost var scanned := ScanAll(s.scans);
    assert |scanned.value| == |allRows|;
    assert forall k :: 0 <= k < |allRows| ==> scanned.value[k] == allRows[k];
    assert scanned.Success? && scanned.value == allRows;

    var raw := codec.encodeRows(allRows, ct);
    if raw.Failure? {
      return None, Some(raw.error);
    }
    return Some(QueryResult(cols, raw.value, rowCount)), None;
  }

  // ---------------------------------------------------------------------------
  // Request routing

  /** An inbound request: its operation tag and its encoded payload. */
  datatype Action = Action(operation: string, msg: Bytes)

  /** A reply on the request's channel. */
  datatype Response = Response(msg: Bytes, error: string)

  /** The error text of a reply: the execution error if there is one, else the decoding
      error, else none. */
  function ReplyError(decodeErr: Option<string>, runErr: Option<string>): string {
    if runErr.Some? then runErr.value
    else if decodeErr.Some? then decodeErr.value
    else ""
  }

  /** The reply to a query request: the encoded result, with the query's error, else the
      decoding error. */
  function QueryReply(decodeErr: Option<string>, q: QueryReturn, codec: Sqldb): Response {
    Response(codec.encodeQueryResponse(q.result), ReplyError(decodeErr, q.err))
  }

  /** What the actor receives for a query whose cursor fails. As written, the reply has no
      result and an error only if decoding the statement failed; with the error returned,
      the reply carries the cursor's error. */
  lemma CursorErrorReplyAsWritten(req: Action, cfg: LitestreamConfig, codec: Sqldb, engine: Engine)
    requires var s := engine.query(codec.decodeStatement(req.msg).0.sql, cfg.dbLocation);
             s.openErr.None? && s.queryErr.None? && s.rowsErr.Some?
    ensures var (st, decodeErr) := codec.decodeStatement(req.msg);
            var s := engine.query(st.sql, cfg.dbLocation);
            && QueryReply(decodeErr, QueryOutcomeAsWritten(s, codec), codec) ==
               Response(codec.encodeQueryResponse(None), if decodeErr.Some? then decodeErr.value else "")
            && QueryReply(decodeErr, QueryOutcome(s, codec), codec) ==
               Response(codec.encodeQueryResponse(None), s.rowsErr.value)
  {
  }

  /** evaluateRequest: route by operation tag; `sent` is what goes on the reply channel. */
  method EvaluateRequest(req: Action, cfg: LitestreamConfig, codec: Sqldb, engine: Engine)
    returns (sent: seq<Response>)
    // At most one reply, and none exactly for Ping.
    ensures |sent| <= 1
    ensures sent == [] <==> req.operation != codec.executeOp && req.operation != codec.queryOp &&
                            req.operation == codec.pingOp
    // Execute: the encoded result, with the execution error, else the decoding error.
    ensures req.operation == codec.executeOp ==>
              var (st, decodeErr) := codec.decodeStatement(req.msg);
              var er := engine.execute(st.sql, cfg.dbLocation);
              sent == [Response(codec.encodeExecuteResponse(er.ToOption()), ReplyError(decodeErr, er.ErrorOption()))]
    // Query: likewise, with the query's outcome on the configured database file.
    ensures req.operation != codec.executeOp && req.operation == codec.queryOp ==>
              var (st, decodeErr) := codec.decodeStatement(req.msg);
              sent == [QueryReply(decodeErr, QueryOutcome(engine.query(st.sql, cfg.dbLocation), codec), codec)]
    // Anything else: one reply carrying only an error.
    ensures req.operation !in {codec.executeOp, codec.queryOp, codec.pingOp} ==>
              sent == [Response([], "Invalid SQLdb Operation")]
  {
    var resp := Response([], "");
    if req.operation == codec.executeOp {
      var (state, decodeErr) := codec.decodeStatement(req.msg);
      if decodeErr.Some? {
        resp := resp.(error := decodeErr.value);
      }
      var er := SQLExecute(state.sql, state.database, cfg.dbLocation, engine);
      if er.Failure? {
        resp := resp.(error := er.error);
      }
      resp := resp.(msg := codec.encodeExecuteResponse(er.ToOption()));
      sent := [resp];
    } else if req.operation == codec.queryOp {
      var (state, decodeErr) := codec.decodeStatement(req.msg);
      if decodeErr.Some? {
        resp := resp.(error := decodeErr.value);
      }
      var qr, err := SQLQuery(state.sql, state.database, cfg.dbLocation, engine, codec);
      if err.Some? {
        resp := resp.(error := err.value);
      }
      resp := resp.(msg := codec.encodeQueryResponse(qr));
      sent := [resp];
    } else if req.operation == codec.pingOp {
      resp := resp.(error := "PING_OPERATION");
      sent := [];
    } else {
      resp := resp.(error := "Invalid SQLdb Operation");
      sent := [resp];
    }
  }
}

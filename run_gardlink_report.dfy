/**
 * The report run route (api/gardners/runGardlinkReport/route.ts). It reads
 * `reportId` from the body, looks up the SQL Server password, loads the
 * report configuration `<reportId>.json`, runs its query against the
 * configured database, saves the full recordset under a fresh id in
 * `tmp/reports` and answers with a five-record summary and that id.
 *
 * The SQLite password lookup, the report files, the database, the uuid
 * generator and `JSON.stringify` are foreign: they are given as an `Env`.
 * What the handler asks of them is recorded as a trace of effects.
 */
module RunGardlinkReport {
  import opened Wrappers
  import opened JsValues
  import opened Fetch
  import opened Http
  import opened Files
  import GetReportFileContent
  import GardnersSalesAgent

  /** What `getSQLServerPasswordFromSQLite` resolves to, or the text it rejects with. */
  datatype PasswordLookup = PasswordFound(password: string) | PasswordRejected(reason: string)

  /** The `connectionConfig` of lines 100-109 (the fixed options are left out). */
  datatype Connection = Connection(user: string, password: string, server: string, database: Value)

  /** What `pool.request().query(sql)` resolves to, or the message it rejects with. */
  datatype QueryOutcome = Recordset(rows: seq<Value>) | DbError(message: string)

  datatype Env = Env(
    passwordLookup: PasswordLookup,
    reportFiles: Reader,                  // `src/app/data/gardlinkReports/<name>`
    connect: Connection -> Option<string>, // the message `sql.connect` rejects with, if it does
    query: Value -> QueryOutcome,
    storeError: Option<string>,           // the message `mkdir`/`writeFile` rejects with, if they do
    stringify: Value -> string)

  /** A request the handler sends to a resource outside it. */
  datatype Effect =
    | ReadPassword
    | ReadReport(file: string)
    | Connect(connection: Connection)
    | Query(sql: Value)
    | Store(file: string, content: string)
    | Close

  /** The answer, the effects in order, and the file written to `tmp/reports` if the write took place. */
  datatype Outcome = Outcome(response: RouteResponse, effects: seq<Effect>, stored: Option<(string, string)>)

  const ProcessFailed := "Failed to process request or retrieve SQL Server password."
  const ParseFailed := "Failed to parse report JSON file."
  const ExecuteFailed := "Failed to execute report."
  const Server := "localhost\\SQLExpress"

  function Min(a: nat, b: nat): nat {
    if a <= b then a else b
  }

  /** The body of a successful answer: the record count, the first five records and the file id. */
  function SummaryBody(rows: seq<Value>, fileId: string): Value {
    Obj(map[
      "summary" := Obj(map["count" := Num(|rows|), "data" := Arr(rows[..Min(5, |rows|)])]),
      "reportFileId" := Str(fileId)])
  }

  /**
   * Lines 72-137: from the report configuration on; `trace` holds the
   * effects before. The earlier effects are kept and the report file is
   * read first; a stored recordset goes under the fresh id, with a 200
   * answer, after which the pool is closed.
   */
  function Execute(reportId: Value, password: string, env: Env, parse: Parser, uuid: string, trace: seq<Effect>): (r: Outcome)
    ensures r.response.Reply?
    ensures |trace| < |r.effects| && r.effects[..|trace|] == trace && r.effects[|trace|] == ReadReport(ToJsString(reportId) + ".json")
    ensures r.stored.Some? ==> r.response.status == 200 && r.stored.value.0 == uuid + ".json" && r.effects[|r.effects| - 1] == Close
  {
    var name := ToJsString(reportId) + ".json";
    var id := ToJsString(reportId);
    var t1 := trace + [ReadReport(name)];
    match env.reportFiles(name)
    case ReadError(code, m) =>
      if code == Enoent then Outcome(ErrorReply(404, "Report file " + name + " not found."), t1, None)
      else Outcome(DetailedError(500, "Failed to read report file " + name + ".", Str(m)), t1, None)
    case Content(text) =>
      match parse(text)
      case SyntaxError(m) => Outcome(DetailedError(500, ParseFailed, Str(m)), t1, None)
      case Parsed(report) =>
        if Nullish(report) then Outcome(DetailedError(500, ExecuteFailed, Str(TypeErrorMessage)), t1, None)
        else if !Truthy(Get(report, "database")) then
          Outcome(ErrorReply(500, "'database' field missing in report configuration for " + id + "."), t1, None)
        else if !Truthy(Get(report, "sqlQuery")) then
          Outcome(ErrorReply(500, "'sqlQuery' field missing in report configuration for " + id + "."), t1, None)
        else
          var conn := Connection("sa", password, Server, Get(report, "database"));
          var t2 := t1 + [Connect(conn)];
          match env.connect(conn)
          case Some(m) => Outcome(DetailedError(500, ExecuteFailed, Str(m)), t2, None)
          case None =>
            var sql := Get(report, "sqlQuery");
            var t3 := t2 + [Query(sql)];
            match env.query(sql)
            case DbError(m) => Outcome(DetailedError(500, ExecuteFailed, Str(m)), t3 + [Close], None)
            case Recordset(rows) =>
              var file := uuid + ".json";
              var content := env.stringify(Arr(rows));
              var t4 := t3 + [Store(file, content)];
              match env.storeError
              case Some(m) => Outcome(DetailedError(500, ExecuteFailed, Str(m)), t4 + [Close], None)
              case None => Outcome(Reply(200, SummaryBody(rows, uuid)), t4 + [Close], Some((file, content)))
  }

  /**
   * The `POST` handler for the outcome of `request.json()`. It always
   * answers; nothing is asked of the environment unless the body holds a
   * truthy `reportId`, and then the password comes first.
   */
  function Run(body: ParseResult, env: Env, parse: Parser, uuid: string): (r: Outcome)
    ensures r.response.Reply?
    ensures r.effects == [] <==> body.SyntaxError? || Nullish(body.value) || !Truthy(Get(body.value, "reportId"))
    ensures r.effects != [] ==> r.effects[0] == ReadPassword
    ensures r.stored.Some? ==> r.response.status == 200
  {
    match body
    case SyntaxError(m) => Outcome(DetailedError(500, ProcessFailed, Str(m)), [], None)
    case Parsed(b) =>
      if Nullish(b) then Outcome(DetailedError(500, ProcessFailed, Str(TypeErrorMessage)), [], None)
      else
        var reportId := Get(b, "reportId");
        if !Truthy(reportId) then Outcome(ErrorReply(400, "reportId is required"), [], None)
        else match env.passwordLookup
          case PasswordRejected(reason) => Outcome(DetailedError(500, ProcessFailed, Str(reason)), [ReadPassword], None)
          case PasswordFound(password) => Execute(reportId, password, env, parse, uuid, [ReadPassword])
  }

  /** The `tmp/reports` directory the route writes to and getReportFileContent reads from. */
  class TempReports {
    var files: map<string, string>

    constructor ()
      ensures files == map[]
    {
      files := map[];
    }

    /**
     * The handler, step by step: the locals `reportId`, `sqlServerPassword`
     * and `pool` are assigned as the request progresses; the returned trace
     * lists the effects in order and a successful run adds its file.
     */
    method Post(body: ParseResult, env: Env, parse: Parser, uuid: string) returns (response: RouteResponse, effects: seq<Effect>)
      modifies this
      ensures var o := Run(body, env, parse, uuid);
        && response == o.response && effects == o.effects
        && files == if o.stored.Some? then old(files)[o.stored.value.0 := o.stored.value.1] else old(files)
    {
      effects := [];
      var sqlServerPassword := "";
      var reportId := Str("");
      if body.SyntaxError? {
        return DetailedError(500, ProcessFailed, Str(body.message)), effects;
      }
      if Nullish(body.value) {
        return DetailedError(500, ProcessFailed, Str(TypeErrorMessage)), effects;
      }
      reportId := Get(body.value, "reportId");
      if !Truthy(reportId) {
        return ErrorReply(400, "reportId is required"), effects;
      }
      effects := effects + [ReadPassword];
      match env.passwordLookup {
        case PasswordRejected(reason) =>
          return DetailedError(500, ProcessFailed, Str(reason)), effects;
        case PasswordFound(p) =>
          sqlServerPassword := p;
      }
      assert effects == [ReadPassword];
      assert Run(body, env, parse, uuid) == Execute(reportId, sqlServerPassword, env, parse, uuid, effects);
      response, effects := RunConfigured(reportId, sqlServerPassword, env, parse, uuid, effects);
    }

    /** Lines 72-155 on the store: the report configuration, the query, the saved recordset and the pool's closing. */
    method RunConfigured(reportId: Value, password: string, env: Env, parse: Parser, uuid: string, trace: seq<Effect>)
      returns (response: RouteResponse, effects: seq<Effect>)
      modifies this
      ensures var o := Execute(reportId, password, env, parse, uuid, trace);
        && response == o.response && effects == o.effects
        && files == if o.stored.Some? then old(files)[o.stored.value.0 := o.stored.value.1] else old(files)
    {
      var name := ToJsString(reportId) + ".json";
      effects := trace + [ReadReport(name)];
      var read := env.reportFiles(name);
      if read.ReadError? {
        if read.code == Enoent {
          return ErrorReply(404, "Report file " + name + " not found."), effects;
        }
        return DetailedError(500, "Failed to read report file " + name + ".", Str(read.message)), effects;
      }
      var parsed := parse(read.text);
      if parsed.SyntaxError? {
        return DetailedError(500, ParseFailed, Str(parsed.message)), effects;
      }
      var report := parsed.value;
      if Nullish(report) {
        return DetailedError(500, ExecuteFailed, Str(TypeErrorMessage)), effects;
      }
      var id := ToJsString(reportId);
      if !Truthy(Get(report, "database")) {
        return ErrorReply(500, "'database' field missing in report configuration for " + id + "."), effects;
      }
      if !Truthy(Get(report, "sqlQuery")) {
        return ErrorReply(500, "'sqlQuery' field missing in report configuration for " + id + "."), effects;
      }
      var conn := Connection("sa", password, Server, Get(report, "database"));
      effects := effects + [Connect(conn)];
      var pool := false;
      var failure := env.connect(conn);
      if failure.Some? {
        return DetailedError(500, ExecuteFailed, Str(failure.value)), effects;
      }
      pool := true;
      var sql := Get(report, "sqlQuery");
      effects := effects + [Query(sql)];
      var result := env.query(sql);
      if result.DbError? {
        response := DetailedError(500, ExecuteFailed, Str(result.message));
      } else {
        var file := uuid + ".json";
        var content := env.stringify(Arr(result.rows));
        effects := effects + [Store(file, content)];
        if env.storeError.Some? {
          response := DetailedError(500, ExecuteFailed, Str(env.storeError.value));
        } else {
          files := files[file := content];
          response := Reply(200, SummaryBody(result.rows, uuid));
        }
      }
      if pool {
        effects := effects + [Close];
      }
    }
  }

  /** A falsy `reportId` is refused with 400 before the password is looked up: nothing is asked of anything. */
  lemma FalsyReportIdRefusedFirst(b: Value, env: Env, parse: Parser, uuid: string)
    requires !Nullish(b) && !Truthy(Get(b, "reportId"))
    ensures Run(Parsed(b), env, parse, uuid) == Outcome(ErrorReply(400, "reportId is required"), [], None)
  {
  }

  /**
   * A truthy `reportId` first retrieves the password, then reads the file
   * named `<reportId>.json` as it is: the id is not checked, so "../x"
   * reads "../x.json".
   */
  lemma ReportPathUnchecked(b: Value, env: Env, parse: Parser, uuid: string)
    requires !Nullish(b) && Truthy(Get(b, "reportId")) && env.passwordLookup.PasswordFound?
    ensures var o := Run(Parsed(b), env, parse, uuid);
      |o.effects| >= 2 && o.effects[0] == ReadPassword && o.effects[1] == ReadReport(ToJsString(Get(b, "reportId")) + ".json")
  {
  }

  /** A missing report file is 404; any other read failure is 500; neither connects. */
  lemma ReportFileErrors(reportId: Value, password: string, env: Env, parse: Parser, uuid: string, trace: seq<Effect>)
    requires env.reportFiles(ToJsString(reportId) + ".json").ReadError?
    ensures var o := Execute(reportId, password, env, parse, uuid, trace);
      var code := env.reportFiles(ToJsString(reportId) + ".json").code;
      && o.response.Reply? && (o.response.status == 404 <==> code == Enoent) && (o.response.status == 500 <==> code != Enoent)
      && o.effects == trace + [ReadReport(ToJsString(reportId) + ".json")] && o.stored.None?
  {
  }

  /**
   * A configuration without `database` is reported as such even when
   * `sqlQuery` is missing too; with a database but no query the query is
   * reported; both are 500 and neither connects.
   */
  lemma DatabaseCheckedBeforeQuery(reportId: Value, password: string, env: Env, parse: Parser, uuid: string, trace: seq<Effect>, text: string)
    requires env.reportFiles(ToJsString(reportId) + ".json") == Content(text)
    requires parse(text).Parsed? && !Nullish(parse(text).value)
    ensures var report := parse(text).value;
      var o := Execute(reportId, password, env, parse, uuid, trace);
      var id := ToJsString(reportId);
      && (!Truthy(Get(report, "database")) ==>
          o.response == ErrorReply(500, "'database' field missing in report configuration for " + id + "."))
      && (Truthy(Get(report, "database")) && !Truthy(Get(report, "sqlQuery")) ==>
          o.response == ErrorReply(500, "'sqlQuery' field missing in report configuration for " + id + "."))
      && (!Truthy(Get(report, "database")) || !Truthy(Get(report, "sqlQuery")) ==>
          o.effects == trace + [ReadReport(ToJsString(reportId) + ".json")] && o.stored.None?)
  {
  }

  /**
   * Every connection the handler opens uses the login "sa", the retrieved
   * password and the report's own `database`, and it is closed exactly when
   * it was opened.
   */
  lemma ConnectsToReportDatabase(reportId: Value, password: string, env: Env, parse: Parser, uuid: string, text: string)
    requires env.reportFiles(ToJsString(reportId) + ".json") == Content(text)
    requires parse(text).Parsed? && !Nullish(parse(text).value)
    requires Truthy(Get(parse(text).value, "database")) && Truthy(Get(parse(text).value, "sqlQuery"))
    ensures var report := parse(text).value;
      var conn := Connection("sa", password, Server, Get(report, "database"));
      var o := Execute(reportId, password, env, parse, uuid, [ReadPassword]);
      && o.effects[..3] == [ReadPassword, ReadReport(ToJsString(reportId) + ".json"), Connect(conn)]
      && (Close in o.effects <==> env.connect(conn).None?)
  {
    var report := parse(text).value;
    var conn := Connection("sa", password, Server, Get(report, "database"));
    var o := Execute(reportId, password, env, parse, uuid, [ReadPassword]);
    if env.connect(conn).Some? {
      assert o.effects == [ReadPassword, ReadReport(ToJsString(reportId) + ".json"), Connect(conn)];
    }
  }

  /**
   * A run answers 200 exactly when the query and the write succeed. Then
   * the summary carries the full record count and the first min(5, n)
   * records, and the full recordset is stored under the same id that the
   * answer returns.
   */
  lemma SuccessfulRun(reportId: Value, password: string, env: Env, parse: Parser, uuid: string, trace: seq<Effect>)
    ensures var o := Execute(reportId, password, env, parse, uuid, trace);
      && (o.response.Reply? && o.response.status == 200 <==> o.stored.Some?)
      && (o.stored.Some? ==>
          exists rows: seq<Value> ::
            && o.response.body == SummaryBody(rows, uuid)
            && o.stored.value == (uuid + ".json", env.stringify(Arr(rows))))
  {
    var o := Execute(reportId, password, env, parse, uuid, trace);
    if o.stored.Some? {
      var report := parse(env.reportFiles(ToJsString(reportId) + ".json").text).value;
      var rows := env.query(Get(report, "sqlQuery")).rows;
      assert o.response.body == SummaryBody(rows, uuid);
    }
  }

  /** The summary counts every record and shows at most the first five. */
  lemma SummaryShape(rows: seq<Value>, fileId: string)
    ensures var s := SummaryBody(rows, fileId).fields["summary"];
      && s.fields["count"] == Num(|rows|)
      && |s.fields["data"].items| == Min(5, |rows|) <= 5
      && s.fields["data"].items == rows[..Min(5, |rows|)]
      && (|rows| <= 5 ==> s.fields["data"].items == rows)
  {
  }

  /**
   * The file a successful run stores is what getReportFileContent serves
   * under the returned id, provided the id passes its format check and the
   * JSON text reads back as the recordset.
   */
  lemma StoredRecordsetIsServed(files: map<string, string>, rows: seq<Value>, uuid: string, stringify: Value -> string, parse: Parser)
    requires GetReportFileContent.WellFormedId(uuid)
    requires parse(stringify(Arr(rows))) == Parsed(Arr(rows))
    ensures GetReportFileContent.GetContent([("fileId", uuid)], GetReportFileContent.View(files[uuid + ".json" := stringify(Arr(rows))]), parse)
      == Reply(200, Obj(map["data" := Arr(rows)]))
  {
    GetReportFileContent.FileOutcomes(uuid, GetReportFileContent.View(files[uuid + ".json" := stringify(Arr(rows))]), parse);
  }

  /**
   * The `runGardlinkReport` tool of the Gardners sales agent accepts every
   * successful answer of this route: it reports the full count, the
   * summary records and the file id.
   */
  lemma ToolAcceptsSuccessfulRun(reportId: Value, rows: seq<Value>, uuid: string)
    requires uuid != ""
    ensures GardnersSalesAgent.WellFormedRun(SummaryBody(rows, uuid))
    ensures var r := GardnersSalesAgent.RunResult(reportId, SummaryBody(rows, uuid));
      && r.fields["numberOfRecords"] == Num(|rows|)
      && r.fields["firstFewRecords"] == Arr(rows[..Min(5, |rows|)])
      && r.fields["reportFileId"] == Str(uuid)
  {
    var body := SummaryBody(rows, uuid);
    assert Get(body, "summary") == body.fields["summary"];
    assert Get(Get(body, "summary"), "count") == Num(|rows|);
    assert Get(Get(body, "summary"), "data") == Arr(rows[..Min(5, |rows|)]);
    assert Get(body, "reportFileId") == Str(uuid);
  }
}

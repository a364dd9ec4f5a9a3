/**
 * The report file route (api/gardners/getReportFileContent/route.ts): it
 * returns the full recordset a report run saved under `tmp/reports`, after
 * checking that the id is present and made of the allowed characters.
 */
module GetReportFileContent {
  import opened Wrappers
  import opened JsValues
  import opened Http

  /** A file under `tmp/reports`: `fs.access` fails, the read fails, or the read gives the content. */
  datatype TempFile = Absent | Unreadable(message: string) | Stored(content: string)

  type TempFiles = string -> TempFile

  /** The files of a directory whose contents are known, none unreadable. */
  function View(files: map<string, string>): TempFiles {
    name => if name in files then Stored(files[name]) else Absent
  }

  /** The character class `[a-f0-9\\-]` of the format check: the regular expression admits a backslash too. */
  predicate IdChar(c: char) {
    ('a' <= c <= 'f') || ('0' <= c <= '9') || c == '\\' || c == '-'
  }

  /** `/^[a-f0-9\\-]+$/.test(fileId)` */
  predicate WellFormedId(id: string) {
    |id| > 0 && forall i :: 0 <= i < |id| ==> IdChar(id[i])
  }

  const IdRequired := "fileId is required"
  const BadFormat := "Invalid fileId format"
  const NotFound := "Report file not found or access denied."
  const ParseFailed := "Failed to parse report file content."
  const ReadFailed := "Failed to retrieve report file content."

  /**
   * The `GET` handler. It always answers; a 200 needs a well-formed id whose
   * file is stored, and every other answer carries an `error` message.
   */
  function GetContent(query: seq<(string, string)>, files: TempFiles, parse: Parser): (r: RouteResponse)
    ensures r.Reply?
    ensures r.status == 200 ==> && Given(QueryGet(query, "fileId")) && WellFormedId(QueryGet(query, "fileId").value)
                                && files(QueryGet(query, "fileId").value + ".json").Stored?
    ensures r.status != 200 ==> r.body.Obj? && "error" in r.body.fields
  {
    var fileId := QueryGet(query, "fileId");
    if !Given(fileId) then ErrorReply(400, IdRequired)
    else if !WellFormedId(fileId.value) then ErrorReply(400, BadFormat)
    else match files(fileId.value + ".json")
      case Absent => ErrorReply(404, NotFound)
      case Unreadable(m) => DetailedError(500, ReadFailed, Str(m))
      case Stored(content) =>
        match parse(content)
        case Parsed(data) => Reply(200, Obj(map["data" := data]))
        case SyntaxError(m) => DetailedError(500, ParseFailed, Str(m))
  }

  /**
   * Presence is checked before format, format before the file system: a
   * missing or empty id is 400 "fileId is required" and an id with a
   * character outside the class is 400 "Invalid fileId format", whatever the
   * files hold.
   */
  lemma ValidationOrder(query: seq<(string, string)>, files: TempFiles, other: TempFiles, parse: Parser)
    ensures !Given(QueryGet(query, "fileId")) ==> GetContent(query, files, parse) == ErrorReply(400, IdRequired)
    ensures Given(QueryGet(query, "fileId")) ==>
      (GetContent(query, files, parse) == ErrorReply(400, BadFormat) <==> !WellFormedId(QueryGet(query, "fileId").value))
    ensures !(Given(QueryGet(query, "fileId")) && WellFormedId(QueryGet(query, "fileId").value)) ==>
      GetContent(query, files, parse) == GetContent(query, other, parse)
  {
  }

  /**
   * For a well-formed id: no file is 404, an unreadable one the generic 500,
   * a file that does not parse the parse 500, and otherwise `{data}` with
   * the parsed content.
   */
  lemma FileOutcomes(id: string, files: TempFiles, parse: Parser)
    requires WellFormedId(id)
    ensures var r := GetContent([("fileId", id)], files, parse);
      var f := files(id + ".json");
      && (f.Absent? <==> r == ErrorReply(404, NotFound))
      && (f.Unreadable? ==> r == DetailedError(500, ReadFailed, Str(f.message)))
      && (f.Stored? && parse(f.content).SyntaxError? ==> r == DetailedError(500, ParseFailed, Str(parse(f.content).message)))
      && (f.Stored? && parse(f.content).Parsed? ==> r == Reply(200, Obj(map["data" := parse(f.content).value])))
  {
    assert QueryGet([("fileId", id)], "fileId") == Some(id);
  }

  /** Ids with '.', '/' or upper-case letters are refused, so no id leaves the directory through "..". */
  lemma TraversalRefused(id: string, i: nat)
    requires i < |id| && (id[i] == '.' || id[i] == '/' || 'A' <= id[i] <= 'Z')
    ensures !WellFormedId(id)
  {
  }

  /** The class as written also admits a backslash, which a Windows path join reads as a separator. */
  lemma BackslashAdmitted()
    ensures WellFormedId("ab\\cd")
    ensures WellFormedId("0f3c-9a")
  {
  }
}

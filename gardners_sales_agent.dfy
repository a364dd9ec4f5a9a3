/**
 * The Gardners sales agent's tools (`toolLogic` of the "gardnersSalesAgent"
 * configuration): EAN validation, product lookup with the jacket image URL,
 * catalogue search, and listing and running Gardlink reports. Each tool is a
 * function of its arguments and of the `fetch` it calls; a rejected promise
 * is `Threw`, a resolved one `Returned`.
 */
module GardnersSalesAgent {
  import opened JsStrings
  import opened JsValues
  import opened Ean13
  import opened Transcript
  import opened Fetch
  import opened HandleServerEvent

  const JacketBase := "https://jackets.gardners.com/media"

  function ErrorObject(error: Value, details: Value): Value {
    Obj(map["error" := error, "details" := details])
  }

  /** `isValidEan13: async ({ ean }) => isValidEan13(ean)`; destructuring `null` throws. */
  function IsValidEan13Tool(args: Value): (r: ToolOutcome)
    ensures Nullish(args) <==> r.Threw?
    ensures r.Returned? ==> r.value == Bool(IsValidEan13(Get(args, "ean")))
  {
    if Nullish(args) then Threw(TypeErrorMessage) else Returned(Bool(IsValidEan13(Get(args, "ean"))))
  }

  /** The product record with `imageUrl` added when `Book.ImageLocation` is truthy; every other field is kept as it was. */
  function WithImageUrl(bookInfo: Value): (r: ToolOutcome)
    ensures Nullish(bookInfo) <==> r.Threw?
    ensures r.Returned? && bookInfo.Obj? ==>
      r.value.Obj? && forall k :: k in bookInfo.fields && k != "imageUrl" ==> k in r.value.fields && r.value.fields[k] == bookInfo.fields[k]
    ensures r.Returned? && !bookInfo.Obj? ==> r.value == bookInfo
  {
    if Nullish(bookInfo) then Threw(TypeErrorMessage)
    else
      var location := Get(Get(bookInfo, "Book"), "ImageLocation");
      if Truthy(location) && bookInfo.Obj?
      then Returned(Obj(bookInfo.fields["imageUrl" := Str(JacketBase + ToJsString(location))]))
      else Returned(bookInfo)
  }

  /** The product request a valid call sends: the EAN as given (untrimmed) and the credentials as strings. */
  function ProductRequest(args: Value): Request {
    GetProduct(ToJsString(Get(args, "ean")), ToJsString(Get(args, "username")), ToJsString(Get(args, "password")))
  }

  /** `retrieveBookInfo`: rejects an invalid EAN before fetching, then shapes the product record of a successful answer. */
  function RetrieveBookInfo(args: Value, fetch: Fetcher): (r: ToolOutcome)
    ensures !Nullish(args) && !IsValidEan13(Get(args, "ean")) ==> r == Threw("Invalid EAN-13 format: " + ToJsString(Get(args, "ean")))
    ensures r.Returned? ==> && !Nullish(args) && IsValidEan13(Get(args, "ean"))
                            && fetch(ProductRequest(args)).Responded? && fetch(ProductRequest(args)).response.ok
  {
    if Nullish(args) then Threw(TypeErrorMessage)
    else if !IsValidEan13(Get(args, "ean")) then Threw("Invalid EAN-13 format: " + ToJsString(Get(args, "ean")))
    else
      match fetch(ProductRequest(args))
      case Rejected(m) => Threw(m)
      case Responded(resp) =>
        if !resp.ok then Threw("Failed to retrieve book info (status " + IntToString(resp.status) + ")")
        else if resp.body.SyntaxError? then Threw(resp.body.message)
        else WithImageUrl(resp.body.value)
  }

  /** The query string pairs of `searchGardnersAPI`, in the order they are appended. */
  function SearchQuery(args: Value): seq<(string, string)> {
    var keyword := Get(args, "keyword");
    var author := Get(args, "author");
    var productType := Get(args, "productType");
    (if Truthy(keyword) then [("keyword", ToJsString(keyword))] else [])
    + (if Truthy(author) then [("author", ToJsString(author))] else [])
    + (if Truthy(productType) then [("productType", ToJsString(productType))] else [])
    + [("username", ToJsString(Get(args, "username"))), ("password", ToJsString(Get(args, "password")))]
  }

  /** Builds the `URLSearchParams` of `searchGardnersAPI` one `append` at a time. */
  method BuildSearchParams(args: Value) returns (searchParams: seq<(string, string)>)
    ensures searchParams == SearchQuery(args)
  {
    var keyword := Get(args, "keyword");
    var author := Get(args, "author");
    var productType := Get(args, "productType");
    searchParams := [];
    if Truthy(keyword) {
      searchParams := searchParams + [("keyword", ToJsString(keyword))];
    }
    if Truthy(author) {
      searchParams := searchParams + [("author", ToJsString(author))];
    }
    if Truthy(productType) {
      searchParams := searchParams + [("productType", ToJsString(productType))];
    }
    searchParams := searchParams + [("username", ToJsString(Get(args, "username")))];
    searchParams := searchParams + [("password", ToJsString(Get(args, "password")))];
  }

  /** The message `searchGardnersAPI` rethrows: the caught error's message, or a default when it is empty. */
  function SearchFailure(message: string): (r: string)
    ensures r != ""
    ensures message != "" ==> r == message
  {
    if message == "" then "An unexpected error occurred during the Gardners API search." else message
  }

  /**
   * `searchGardnersAPI`: sends the query and returns the parsed results of
   * a successful answer; every failure becomes a rejection with a non-empty
   * message.
   */
  function SearchGardnersApi(args: Value, fetch: Fetcher): (r: ToolOutcome)
    ensures r.Threw? ==> r.message != ""
    ensures r.Returned? <==> && !Nullish(args) && fetch(SearchProducts(SearchQuery(args))).Responded?
                             && fetch(SearchProducts(SearchQuery(args))).response.ok
                             && fetch(SearchProducts(SearchQuery(args))).response.body.Parsed?
    ensures r.Returned? ==> r.value == fetch(SearchProducts(SearchQuery(args))).response.body.value
  {
    if Nullish(args) then Threw(TypeErrorMessage)
    else
      match fetch(SearchProducts(SearchQuery(args)))
      case Rejected(m) => Threw(SearchFailure(m))
      case Responded(resp) =>
        if !resp.ok then
          var errData := if resp.body.Parsed? then resp.body.value else Obj(map["error" := Str("API error: " + IntToString(resp.status))]);
          if Nullish(errData) then Threw(SearchFailure(TypeErrorMessage))
          else Threw(SearchFailure(ToJsString(Or(Get(errData, "error"), Str("Failed to search Gardners API (status " + IntToString(resp.status) + ")")))))
        else if resp.body.SyntaxError? then Threw(SearchFailure(resp.body.message))
        else Returned(resp.body.value)
  }

  const ListFailure := "Failed to list Gardlink reports due to a network or unexpected error."

  /** `listGardlinkReports`: never rejects; failures become `{error, details}` objects, so the result holds either a report list or an error. */
  function ListGardlinkReports(fetch: Fetcher): (r: Value)
    ensures r.Obj? && ("reports" in r.fields <==> "error" !in r.fields)
  {
    match fetch(ListReports)
    case Rejected(m) => ErrorObject(Str(ListFailure), Str(m))
    case Responded(resp) =>
      if !resp.ok then
        var errorData := if resp.body.Parsed? then resp.body.value
          else ErrorObject(Str("API request failed with status: " + IntToString(resp.status)), Str("Could not parse error response."));
        if Nullish(errorData) then ErrorObject(Str(ListFailure), Str(TypeErrorMessage))
        else ErrorObject(Or(Get(errorData, "error"), Str("Failed to list reports via API.")), Get(errorData, "details"))
      else if resp.body.SyntaxError? then ErrorObject(Str(ListFailure), Str(resp.body.message))
      else
        var result := resp.body.value;
        if Nullish(result) then ErrorObject(Str(ListFailure), Str(TypeErrorMessage))
        else if Truthy(Get(result, "error")) then ErrorObject(Get(result, "error"), Get(result, "details"))
        else if !Truthy(Get(result, "reports")) then ErrorObject(Str("Invalid response from report listing API."), Str("No reports array found."))
        else Obj(map["reports" := Get(result, "reports"), "message" := Or(Get(result, "message"), Str(""))])
  }

  function RunFailure(reportId: string, message: string): Value {
    ErrorObject(Str("Failed to run report " + reportId + " due to a network or unexpected error."), Str(message))
  }

  /** True when a run response carries a summary with a numeric count, an array of records and a truthy file id. */
  predicate WellFormedRun(result: Value) {
    var summary := Get(result, "summary");
    Truthy(summary) && Get(summary, "count").Num? && Get(summary, "data").Arr? && Truthy(Get(result, "reportFileId"))
  }

  /**
   * The tool result for a parsed, successful run response: either an error
   * or, for a well-formed run, its count and file id under the caller's
   * report id.
   */
  function RunResult(reportId: Value, result: Value): (r: Value)
    ensures r.Obj? && ("reportId" in r.fields <==> "error" !in r.fields)
    ensures "reportId" in r.fields ==> && WellFormedRun(result) && r.fields["reportId"] == reportId
                                       && "numberOfRecords" in r.fields && "reportFileId" in r.fields
                                       && r.fields["numberOfRecords"] == Get(Get(result, "summary"), "count")
                                       && r.fields["reportFileId"] == Get(result, "reportFileId")
  {
    var id := ToJsString(reportId);
    if Nullish(result) then RunFailure(id, TypeErrorMessage)
    else if Truthy(Get(result, "error")) then ErrorObject(Get(result, "error"), Get(result, "details"))
    else if !WellFormedRun(result) then Obj(map["error" := Str("Invalid response structure from API for report " + id + ".")])
    else
      var count := Get(Get(result, "summary"), "count");
      var fileId := Get(result, "reportFileId");
      Obj(map[
        "reportId" := reportId,
        "numberOfRecords" := count,
        "firstFewRecords" := Get(Get(result, "summary"), "data"),
        "reportFileId" := fileId,
        "message" := Str("Report '" + id + "' executed successfully. Found " + IntToString(count.n)
                         + " records. Full data available with ID: " + ToJsString(fileId) + ".")])
  }

  /** `runGardlinkReport`: posts `{reportId}`; destructuring `null` arguments rejects, every later failure is an `{error}` result. */
  function RunGardlinkReport(args: Value, fetch: Fetcher): (r: ToolOutcome)
    ensures Nullish(args) <==> r.Threw?
    ensures r.Returned? ==> r.value.Obj? && ("reportId" in r.value.fields <==> "error" !in r.value.fields)
  {
    if Nullish(args) then Threw(TypeErrorMessage)
    else
      var reportId := Get(args, "reportId");
      var id := ToJsString(reportId);
      match fetch(RunReport(Obj(map["reportId" := reportId])))
      case Rejected(m) => Returned(RunFailure(id, m))
      case Responded(resp) =>
        if !resp.ok then
          var errorData := if resp.body.Parsed? then resp.body.value
            else ErrorObject(Str("API request failed with status: " + IntToString(resp.status)), Str("Could not parse error response."));
          if Nullish(errorData) then Returned(RunFailure(id, TypeErrorMessage))
          else Returned(ErrorObject(Or(Get(errorData, "error"), Str("Failed to run report " + id + " via API.")), Get(errorData, "details")))
        else if resp.body.SyntaxError? then Returned(RunFailure(id, resp.body.message))
        else Returned(RunResult(reportId, resp.body.value))
  }

  /** The tool implementations as the dispatcher calls them: arguments and transcript in, outcome out. */
  function EanTool(): Tool {
    (a: Value, t: seq<TranscriptItem>) => IsValidEan13Tool(a)
  }

  function BookInfoTool(fetch: Fetcher): Tool {
    (a: Value, t: seq<TranscriptItem>) => RetrieveBookInfo(a, fetch)
  }

  function SearchTool(fetch: Fetcher): Tool {
    (a: Value, t: seq<TranscriptItem>) => SearchGardnersApi(a, fetch)
  }

  function ListTool(fetch: Fetcher): Tool {
    (a: Value, t: seq<TranscriptItem>) => Returned(ListGardlinkReports(fetch))
  }

  function RunTool(fetch: Fetcher): Tool {
    (a: Value, t: seq<TranscriptItem>) => RunGardlinkReport(a, fetch)
  }

  /** The `toolLogic` map of the "gardnersSalesAgent" configuration in gardnersSalesAgent.ts. */
  function Tools(fetch: Fetcher): (r: map<string, Tool>)
    ensures r.Keys == {"isValidEan13", "retrieveBookInfo", "searchGardnersAPI", "listGardlinkReports", "runGardlinkReport"}
  {
    var ean, book, search, list, run := EanTool(), BookInfoTool(fetch), SearchTool(fetch), ListTool(fetch), RunTool(fetch);
    map[
      "isValidEan13" := ean,
      "retrieveBookInfo" := book,
      "searchGardnersAPI" := search,
      "listGardlinkReports" := list,
      "runGardlinkReport" := run]
  }

  /** The "gardnersSalesAgent" configuration: its name and its tools (the prompt, voice and tool schemas are not modelled). */
  function Config(fetch: Fetcher): (a: Agent)
    ensures a.name == "gardnersSalesAgent" && a.toolLogic.Keys == Tools(fetch).Keys
  {
    Agent("gardnersSalesAgent", Tools(fetch))
  }

  /** `retrieveBookInfo` rejects an invalid EAN whatever `fetch` would answer: nothing is sent. */
  lemma InvalidEanRejectedBeforeFetch(args: Value, fetch: Fetcher, other: Fetcher)
    requires !Nullish(args) && !IsValidEan13(Get(args, "ean"))
    ensures RetrieveBookInfo(args, fetch) == Threw("Invalid EAN-13 format: " + ToJsString(Get(args, "ean")))
    ensures RetrieveBookInfo(args, fetch) == RetrieveBookInfo(args, other)
  {
  }

  /**
   * For a valid EAN the only request is the product lookup, which carries
   * the EAN exactly as given, surrounding whitespace included.
   */
  lemma ProductLookupIsTheOnlyRequest(args: Value, fetch: Fetcher, other: Fetcher)
    requires !Nullish(args) && IsValidEan13(Get(args, "ean"))
    requires fetch(ProductRequest(args)) == other(ProductRequest(args))
    ensures RetrieveBookInfo(args, fetch) == RetrieveBookInfo(args, other)
    ensures Get(args, "ean").Str? && ProductRequest(args).ean == Get(args, "ean").s
  {
    ValidIffGs1(Get(args, "ean"));
  }

  /**
   * A product record gains `imageUrl` = the jacket base followed by the
   * location exactly when `Book.ImageLocation` is truthy; no other field changes.
   */
  lemma ImageUrlIffLocation(bookInfo: Value)
    requires bookInfo.Obj?
    ensures var r := WithImageUrl(bookInfo);
      var location := Get(Get(bookInfo, "Book"), "ImageLocation");
      && r.Returned? && r.value.Obj?
      && (Truthy(location) ==> "imageUrl" in r.value.fields && r.value.fields["imageUrl"] == Str(JacketBase + ToJsString(location)))
      && (!Truthy(location) ==> r.value == bookInfo)
      && (forall k :: k != "imageUrl" ==> (k in r.value.fields <==> k in bookInfo.fields))
      && (forall k :: k != "imageUrl" && k in bookInfo.fields ==> r.value.fields[k] == bookInfo.fields[k])
  {
  }

  predicate HasKey(q: seq<(string, string)>, key: string) {
    exists i :: 0 <= i < |q| && q[i].0 == key
  }

  /**
   * The search query holds keyword, author and productType exactly when each
   * is truthy (so a productType of 0 is dropped), and always ends with the
   * username and the password.
   */
  lemma SearchQueryShape(args: Value)
    ensures var q := SearchQuery(args);
      && |q| >= 2
      && q[|q| - 2] == ("username", ToJsString(Get(args, "username")))
      && q[|q| - 1] == ("password", ToJsString(Get(args, "password")))
      && (HasKey(q, "keyword") <==> Truthy(Get(args, "keyword")))
      && (HasKey(q, "author") <==> Truthy(Get(args, "author")))
      && (HasKey(q, "productType") <==> Truthy(Get(args, "productType")))
      && (Get(args, "productType") == Num(0) ==> !HasKey(q, "productType"))
  {
    var q := SearchQuery(args);
    var n1 := if Truthy(Get(args, "keyword")) then 1 else 0;
    var n2 := if Truthy(Get(args, "author")) then 1 else 0;
    if Truthy(Get(args, "keyword")) {
      assert q[0].0 == "keyword";
    }
    if Truthy(Get(args, "author")) {
      assert q[n1].0 == "author";
    }
    if Truthy(Get(args, "productType")) {
      assert q[n1 + n2].0 == "productType";
    }
  }

  /**
   * A parsed run response without a truthy `error` becomes a success object
   * exactly when it is well formed; the success object passes the count, the
   * records, the file id and the report id through, and a malformed
   * response yields an object with `error` only.
   */
  lemma RunResultShape(reportId: Value, result: Value)
    requires !Nullish(result) && !Truthy(Get(result, "error"))
    ensures var r := RunResult(reportId, result);
      && r.Obj?
      && (WellFormedRun(result) <==> "reportFileId" in r.fields)
      && (!WellFormedRun(result) ==> r.fields.Keys == {"error"})
      && (WellFormedRun(result) ==>
            && r.fields["reportId"] == reportId
            && r.fields["numberOfRecords"] == Get(Get(result, "summary"), "count")
            && r.fields["firstFewRecords"] == Get(Get(result, "summary"), "data")
            && r.fields["reportFileId"] == Get(result, "reportFileId"))
  {
  }

  /**
   * A report run opens the report viewer only when the run response was
   * well formed and its `reportFileId` is a string, which is then the id
   * the viewer shows.
   */
  lemma OnlyWellFormedRunsOpenViewer(args: Value, fetch: Fetcher)
    requires RunGardlinkReport(args, fetch).Returned?
    requires ReportFileIdOf(RunGardlinkReport(args, fetch).value).Some?
    ensures var out := fetch(RunReport(Obj(map["reportId" := Get(args, "reportId")])));
      && out.Responded? && out.response.ok && out.response.body.Parsed?
      && WellFormedRun(out.response.body.value)
      && Get(out.response.body.value, "reportFileId") == Str(ReportFileIdOf(RunGardlinkReport(args, fetch).value).value)
  {
    var v := RunGardlinkReport(args, fetch).value;
    var reportId := Get(args, "reportId");
    var out := fetch(RunReport(Obj(map["reportId" := reportId])));
    assert "reportFileId" in v.fields;
    assert !Nullish(args);
    assert out.Responded? && out.response.ok && out.response.body.Parsed?;
    var result := out.response.body.value;
    assert v == RunResult(reportId, result);
    assert !Nullish(result) && !Truthy(Get(result, "error"));
    assert WellFormedRun(result);
  }

  /**
   * Listing reports answers `{reports, message}` exactly when the response
   * is ok, parses to a value without a truthy `error`, and has truthy
   * `reports`, which are passed through; everything else is `{error, details}`.
   */
  lemma ListingShape(fetch: Fetcher)
    ensures var r := ListGardlinkReports(fetch);
      var out := fetch(ListReports);
      var good := && out.Responded? && out.response.ok && out.response.body.Parsed?
                  && !Nullish(out.response.body.value)
                  && !Truthy(Get(out.response.body.value, "error"))
                  && Truthy(Get(out.response.body.value, "reports"));
      && r.Obj?
      && (good <==> "reports" in r.fields)
      && (good ==> r.fields.Keys == {"reports", "message"} && r.fields["reports"] == Get(out.response.body.value, "reports"))
      && (!good ==> r.fields.Keys == {"error", "details"})
  {
  }
}

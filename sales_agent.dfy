/**
 * The sales agent of salesAgent.ts, the one the Gardners agent set wires in.
 * It is also named "gardnersSalesAgent" and its tools are those of
 * gardnersSalesAgent.ts without `searchGardnersAPI`; the shared tools and
 * the EAN check are the same definitions, not copies.
 */
module SalesAgent {
  import opened JsStrings
  import opened JsValues
  import opened Ean13
  import opened Transcript
  import opened Fetch
  import opened HandleServerEvent
  import GardnersSalesAgent

  function Tools(fetch: Fetcher): (r: map<string, Tool>)
    ensures r.Keys == {"isValidEan13", "retrieveBookInfo", "listGardlinkReports", "runGardlinkReport"}
    ensures forall k :: k in r ==> k in GardnersSalesAgent.Tools(fetch) && r[k] == GardnersSalesAgent.Tools(fetch)[k]
  {
    GardnersSalesAgent.Tools(fetch) - {"searchGardnersAPI"}
  }

  function Config(fetch: Fetcher): (a: Agent)
    ensures a.name == "gardnersSalesAgent" && a.toolLogic == Tools(fetch)
  {
    Agent("gardnersSalesAgent", Tools(fetch))
  }

  /** The agent's `retrieveBookInfo` tool rejects an invalid EAN, whatever `fetch` would answer. */
  lemma RetrieveRejectsInvalidEan(args: Value, transcript: seq<TranscriptItem>, fetch: Fetcher, other: Fetcher)
    requires !Nullish(args) && !IsValidEan13(Get(args, "ean"))
    ensures Tools(fetch)["retrieveBookInfo"](args, transcript) == Threw("Invalid EAN-13 format: " + ToJsString(Get(args, "ean")))
    ensures Tools(fetch)["retrieveBookInfo"](args, transcript) == Tools(other)["retrieveBookInfo"](args, transcript)
  {
    GardnersSalesAgent.InvalidEanRejectedBeforeFetch(args, fetch, other);
  }

  /**
   * For a valid EAN whose lookup answers a product object, the tool returns
   * that object with `imageUrl` set exactly when `Book.ImageLocation` is
   * truthy, and nothing else changed.
   */
  lemma RetrieveAddsImageUrl(args: Value, transcript: seq<TranscriptItem>, fetch: Fetcher, bookInfo: Value, status: int)
    requires !Nullish(args) && IsValidEan13(Get(args, "ean")) && bookInfo.Obj?
    requires fetch(GardnersSalesAgent.ProductRequest(args)) == Responded(Response(true, status, Parsed(bookInfo)))
    ensures var r := Tools(fetch)["retrieveBookInfo"](args, transcript);
      var location := Get(Get(bookInfo, "Book"), "ImageLocation");
      && r.Returned? && r.value.Obj?
      && (Truthy(location) ==> "imageUrl" in r.value.fields && r.value.fields["imageUrl"] == Str(GardnersSalesAgent.JacketBase + ToJsString(location)))
      && (!Truthy(location) ==> r.value == bookInfo)
      && (forall k :: k != "imageUrl" ==> (k in r.value.fields <==> k in bookInfo.fields))
      && (forall k :: k != "imageUrl" && k in bookInfo.fields ==> r.value.fields[k] == bookInfo.fields[k])
  {
    GardnersSalesAgent.ImageUrlIffLocation(bookInfo);
  }

  /**
   * The agent's `runGardlinkReport` tool, on an ok response without a truthy
   * `error`, yields `{error}` alone for a malformed report and otherwise the
   * report id, `summary.count`, `summary.data` and the file id unchanged.
   */
  lemma RunReportResult(args: Value, transcript: seq<TranscriptItem>, fetch: Fetcher, result: Value, status: int)
    requires !Nullish(args) && !Nullish(result) && !Truthy(Get(result, "error"))
    requires fetch(RunReport(Obj(map["reportId" := Get(args, "reportId")]))) == Responded(Response(true, status, Parsed(result)))
    ensures var r := Tools(fetch)["runGardlinkReport"](args, transcript);
      && r.Returned? && r.value.Obj?
      && (!GardnersSalesAgent.WellFormedRun(result) ==> r.value.fields.Keys == {"error"})
      && (GardnersSalesAgent.WellFormedRun(result) ==>
            && r.value.fields["reportId"] == Get(args, "reportId")
            && r.value.fields["numberOfRecords"] == Get(Get(result, "summary"), "count")
            && r.value.fields["firstFewRecords"] == Get(Get(result, "summary"), "data")
            && r.value.fields["reportFileId"] == Get(result, "reportFileId"))
  {
    GardnersSalesAgent.RunResultShape(Get(args, "reportId"), result);
  }
}

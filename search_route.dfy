/**
 * The Gardners product search route (api/gardners/search/route.ts): it
 * validates the query string, builds the search payload field by field and
 * forwards it to the Gardners search service, passing failures through.
 */
module SearchRoute {
  import opened Wrappers
  import opened JsValues
  import opened JsStrings
  import opened Fetch
  import opened Http
  import GardnersSalesAgent

  datatype PayloadResult = Payload(fields: map<string, Value>) | InvalidProductType

  /** The payload lines 26-43 build, or the NaN exit. */
  function SearchPayload(keyword: Option<string>, author: Option<string>, productType: Option<string>): (r: PayloadResult)
    ensures r.InvalidProductType? ==> Given(productType)
    ensures r.Payload? ==> "ItemsPerPage" in r.fields && "PageNumber" in r.fields
  {
    var base := map["ItemsPerPage" := Num(10), "PageNumber" := Num(1)];
    var withKeyword := if Given(keyword) then base["Keyword" := Str(keyword.value)] else base;
    var withAuthor := if Given(author) then withKeyword["Author" := Str(author.value)] else withKeyword;
    if !Given(productType) then Payload(withAuthor)
    else match ParseInt10(productType.value)
      case None => InvalidProductType
      case Some(n) => Payload(withAuthor["ProductType" := Num(n)])
  }

  /** Lines 26-43: the payload starts with the paging defaults and gains one field per given criterion. */
  method BuildPayload(keyword: Option<string>, author: Option<string>, productType: Option<string>) returns (r: PayloadResult)
    ensures r == SearchPayload(keyword, author, productType)
  {
    var payload := map["ItemsPerPage" := Num(10), "PageNumber" := Num(1)];
    if Given(keyword) {
      payload := payload["Keyword" := Str(keyword.value)];
    }
    if Given(author) {
      payload := payload["Author" := Str(author.value)];
    }
    if Given(productType) {
      var n := ParseInt10(productType.value);
      if n.None? {
        return InvalidProductType;
      }
      payload := payload["ProductType" := Num(n.value)];
    }
    return Payload(payload);
  }

  /**
   * The payload always pages 10 items from page 1; `Keyword` and `Author`
   * are there exactly when given, `ProductType` exactly when given and
   * parsed, and a given product type with no leading integer is refused.
   */
  lemma PayloadShape(keyword: Option<string>, author: Option<string>, productType: Option<string>)
    ensures var r := SearchPayload(keyword, author, productType);
      && (r.InvalidProductType? <==> Given(productType) && ParseInt10(productType.value).None?)
      && (r.Payload? ==>
        && r.fields["ItemsPerPage"] == Num(10) && r.fields["PageNumber"] == Num(1)
        && r.fields.Keys <= {"ItemsPerPage", "PageNumber", "Keyword", "Author", "ProductType"}
        && ("Keyword" in r.fields <==> Given(keyword))
        && (Given(keyword) ==> r.fields["Keyword"] == Str(keyword.value))
        && ("Author" in r.fields <==> Given(author))
        && (Given(author) ==> r.fields["Author"] == Str(author.value))
        && ("ProductType" in r.fields <==> Given(productType))
        && (Given(productType) ==> r.fields["ProductType"] == Num(ParseInt10(productType.value).value)))
  {
  }

  const CredentialsMissing := "Missing Gardners API credentials"
  const NoCriterion := "At least one search criterion (keyword, author, productType) must be provided"
  const BadProductType := "Invalid ProductType. Must be an integer."
  const CallFailed := "Failed to call Gardners Search API"

  /**
   * The `GET` handler for the given query string. It always answers (the
   * `catch` turns every failure into a reply), and every answer other than
   * 200 carries an `error` message.
   */
  function Search(query: seq<(string, string)>, fetch: Fetcher): (r: RouteResponse)
    ensures r.Reply?
    ensures r.status != 200 ==> r.body.Obj? && "error" in r.body.fields
  {
    var username := QueryGet(query, "username");
    var password := QueryGet(query, "password");
    var keyword := QueryGet(query, "keyword");
    var author := QueryGet(query, "author");
    var productType := QueryGet(query, "productType");
    if !Given(username) || !Given(password) then ErrorReply(400, CredentialsMissing)
    else if !Given(keyword) && !Given(author) && !Given(productType) then ErrorReply(400, NoCriterion)
    else match SearchPayload(keyword, author, productType)
      case InvalidProductType => ErrorReply(400, BadProductType)
      case Payload(fields) =>
        match fetch(UpstreamSearch(username.value, password.value, Obj(fields)))
        case Rejected(m) => DetailedError(500, CallFailed, Str(m))
        case Responded(resp) =>
          if !resp.ok then
            var details := if resp.body.Parsed? then resp.body.value else Null;
            DetailedError(resp.status, "Gardners API request failed with status " + IntToString(resp.status), details)
          else match resp.body
            case Parsed(data) => Reply(200, data)
            case SyntaxError(m) => DetailedError(500, CallFailed, Str(m))
  }

  /** Missing credentials are reported first, whatever the criteria, and nothing is sent. */
  lemma CredentialsCheckedFirst(query: seq<(string, string)>, fetch: Fetcher, other: Fetcher)
    requires !Given(QueryGet(query, "username")) || !Given(QueryGet(query, "password"))
    ensures Search(query, fetch) == ErrorReply(400, CredentialsMissing) == Search(query, other)
  {
  }

  /** With credentials but no criterion the route refuses before sending anything. */
  lemma CriterionRequired(query: seq<(string, string)>, fetch: Fetcher, other: Fetcher)
    requires Given(QueryGet(query, "username")) && Given(QueryGet(query, "password"))
    ensures Search(query, fetch) == ErrorReply(400, NoCriterion)
      <==> !Given(QueryGet(query, "keyword")) && !Given(QueryGet(query, "author")) && !Given(QueryGet(query, "productType"))
    ensures Search(query, fetch) == ErrorReply(400, NoCriterion) ==> Search(query, other) == Search(query, fetch)
  {
    var r := Search(query, fetch);
    if Given(QueryGet(query, "keyword")) || Given(QueryGet(query, "author")) || Given(QueryGet(query, "productType")) {
      if r.Reply? && r.status == 400 && "details" !in r.body.fields {
        assert r.body.fields["error"] == Str(BadProductType);
      }
    }
  }

  /**
   * Once the query is valid exactly one request goes upstream, carrying the
   * credentials and the payload; a failed status is passed through with its
   * details, a successful body is returned unchanged.
   */
  lemma ForwardsToGardners(query: seq<(string, string)>, fetch: Fetcher)
    requires Given(QueryGet(query, "username")) && Given(QueryGet(query, "password"))
    requires Given(QueryGet(query, "keyword")) || Given(QueryGet(query, "author")) || Given(QueryGet(query, "productType"))
    requires SearchPayload(QueryGet(query, "keyword"), QueryGet(query, "author"), QueryGet(query, "productType")).Payload?
    ensures var req := UpstreamSearch(QueryGet(query, "username").value, QueryGet(query, "password").value,
        Obj(SearchPayload(QueryGet(query, "keyword"), QueryGet(query, "author"), QueryGet(query, "productType")).fields));
      && (fetch(req).Responded? && !fetch(req).response.ok ==>
          Search(query, fetch).Reply? && Search(query, fetch).status == fetch(req).response.status
          && Search(query, fetch).body.fields["error"] == Str("Gardners API request failed with status " + IntToString(fetch(req).response.status)))
      && (fetch(req).Responded? && fetch(req).response.ok && fetch(req).response.body.Parsed? ==>
          Search(query, fetch) == Reply(200, fetch(req).response.body.value))
      && (fetch(req).Rejected? ==> Search(query, fetch) == DetailedError(500, CallFailed, Str(fetch(req).message)))
  {
  }

  /** "abc" has no leading integer: `parseInt` gives NaN. */
  lemma AbcIsNaN()
    ensures ParseInt10("abc") == None
  {
    assert TrimStart("abc") == "abc";
    assert DigitRun("abc") == 0;
  }

  /** A product type with no leading integer is refused with 400 before anything is sent. */
  lemma ProductTypeNaNRefused(query: seq<(string, string)>, fetch: Fetcher, other: Fetcher)
    requires Given(QueryGet(query, "username")) && Given(QueryGet(query, "password"))
    requires Given(QueryGet(query, "productType")) && ParseInt10(QueryGet(query, "productType").value) == None
    ensures Search(query, fetch) == ErrorReply(400, BadProductType) == Search(query, other)
  {
  }

  /** A product type such as "abc" is refused with 400 before anything is sent. */
  lemma NonNumericProductTypeRefused(fetch: Fetcher)
    ensures Search([("username", "u"), ("password", "p"), ("productType", "abc")], fetch) == ErrorReply(400, BadProductType)
  {
    var q := [("username", "u"), ("password", "p"), ("productType", "abc")];
    assert QueryGet(q, "username") == Some("u");
    assert QueryGet(q, "password") == Some("p");
    assert QueryGet(q, "productType") == Some("abc");
    AbcIsNaN();
    ProductTypeNaNRefused(q, fetch, fetch);
  }

  /** `parseInt` keeps the leading integer: "12abc" is sent as product type 12. */
  lemma LeadingIntegerAccepted()
    ensures SearchPayload(None, None, Some("12abc")) == Payload(map["ItemsPerPage" := Num(10), "PageNumber" := Num(1), "ProductType" := Num(12)])
  {
    assert TrimStart("12abc") == "12abc";
    assert DigitRun("12abc") == 2;
    assert "12abc"[..2] == "12";
    assert DigitsValue("12") == 12;
  }

  function Part(present: bool, k: string, v: string): seq<(string, string)> {
    if present then [(k, v)] else []
  }

  lemma QueryGetPart(present: bool, k: string, v: string, key: string)
    ensures QueryGet(Part(present, k, v), key) == if present && k == key then Some(v) else None
  {
    if present {
      QueryGetPair(k, v, key);
    }
  }

  /** Reading, under any key, a query of optional criteria followed by the two credentials. */
  lemma QueryOfParts(kb: bool, kv: string, ab: bool, av: string, pb: bool, pv: string, u: string, pw: string, key: string)
    ensures QueryGet(Part(kb, "keyword", kv) + Part(ab, "author", av) + Part(pb, "productType", pv) + [("username", u), ("password", pw)], key)
      == if kb && key == "keyword" then Some(kv)
         else if ab && key == "author" then Some(av)
         else if pb && key == "productType" then Some(pv)
         else if key == "username" then Some(u)
         else if key == "password" then Some(pw)
         else None
  {
    var k := Part(kb, "keyword", kv);
    var a := Part(ab, "author", av);
    var p := Part(pb, "productType", pv);
    QueryGetAppend(k + a + p, [("username", u), ("password", pw)], key);
    QueryGetAppend(k + a, p, key);
    QueryGetAppend(k, a, key);
    QueryGetPart(kb, "keyword", kv, key);
    QueryGetPart(ab, "author", av, key);
    QueryGetPart(pb, "productType", pv, key);
    assert [("username", u), ("password", pw)] == [("username", u)] + [("password", pw)];
    QueryGetAppend([("username", u)], [("password", pw)], key);
    QueryGetPair("username", u, key);
    QueryGetPair("password", pw, key);
  }

  /**
   * The query the `searchGardnersAPI` tool builds reads back on this route:
   * each criterion exactly when the tool found it truthy, and the
   * credentials always. A missing username or password arrives as the text
   * "undefined", which passes the credential check.
   */
  lemma ToolQueryReadsBack(args: Value)
    ensures var q := GardnersSalesAgent.SearchQuery(args);
      && QueryGet(q, "keyword") == (if Truthy(Get(args, "keyword")) then Some(ToJsString(Get(args, "keyword"))) else None)
      && QueryGet(q, "author") == (if Truthy(Get(args, "author")) then Some(ToJsString(Get(args, "author"))) else None)
      && QueryGet(q, "productType") == (if Truthy(Get(args, "productType")) then Some(ToJsString(Get(args, "productType"))) else None)
      && QueryGet(q, "username") == Some(ToJsString(Get(args, "username")))
      && QueryGet(q, "password") == Some(ToJsString(Get(args, "password")))
      && (Get(args, "username") == Undefined ==> Given(QueryGet(q, "username")))
  {
    var kb, kv := Truthy(Get(args, "keyword")), ToJsString(Get(args, "keyword"));
    var ab, av := Truthy(Get(args, "author")), ToJsString(Get(args, "author"));
    var pb, pv := Truthy(Get(args, "productType")), ToJsString(Get(args, "productType"));
    var u, pw := ToJsString(Get(args, "username")), ToJsString(Get(args, "password"));
    assert GardnersSalesAgent.SearchQuery(args) == Part(kb, "keyword", kv) + Part(ab, "author", av) + Part(pb, "productType", pv) + [("username", u), ("password", pw)];
    QueryOfParts(kb, kv, ab, av, pb, pv, u, pw, "keyword");
    QueryOfParts(kb, kv, ab, av, pb, pv, u, pw, "author");
    QueryOfParts(kb, kv, ab, av, pb, pv, u, pw, "productType");
    QueryOfParts(kb, kv, ab, av, pb, pv, u, pw, "username");
    QueryOfParts(kb, kv, ab, av, pb, pv, u, pw, "password");
  }
}

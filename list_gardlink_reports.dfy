/**
 * The report listing route (api/gardners/listGardlinkReports/route.ts): it
 * lists the `.json` report configurations of the reports directory, in
 * directory order, with an id, a title and a description for each; a file
 * that cannot be read or parsed is still listed, as an error entry.
 */
module ListGardlinkReports {
  import opened JsValues
  import opened JsStrings
  import opened Fetch
  import opened Http
  import opened Files

  /** What `fs.readdir` resolves to, or the error it rejects with. */
  datatype DirListing = Listed(names: seq<string>) | DirError(code: string, message: string)

  /** `files.filter(file => file.endsWith('.json'))` */
  function JsonFiles(names: seq<string>): (r: seq<string>)
    ensures forall f :: f in r <==> f in names && EndsWith(f, ".json")
    ensures |r| <= |names|
  {
    if names == [] then []
    else
      var last := names[|names| - 1];
      JsonFiles(names[..|names| - 1]) + (if EndsWith(last, ".json") then [last] else [])
  }

  /** The filter keeps the directory order: it distributes over concatenation. */
  lemma {:induction false} JsonFilesAppend(a: seq<string>, b: seq<string>)
    ensures JsonFiles(a + b) == JsonFiles(a) + JsonFiles(b)
    decreases |b|
  {
    if b == [] {
      assert a + b == a;
    } else {
      assert (a + b)[..|a + b| - 1] == a + b[..|b| - 1];
      JsonFilesAppend(a, b[..|b| - 1]);
    }
  }

  /** `file.replace('.json', '')`: the first occurrence only. */
  function DefaultId(file: string): string {
    ReplaceFirst(file, ".json", "")
  }

  function ErrorEntry(file: string, message: string): Value {
    Obj(map["id" := Str(DefaultId(file)), "title" := Str("Error: Could not parse " + file), "description" := Str(message)])
  }

  /**
   * Lines 26-41 for one file: read, parse, fill the defaults; any exception
   * gives an error entry. Either way the entry has exactly an id, a title
   * and a description.
   */
  function Entry(file: string, read: FileRead, parse: Parser): (r: Value)
    ensures r.Obj? && r.fields.Keys == {"id", "title", "description"}
    ensures read.ReadError? || parse(read.text).SyntaxError? ==> r.fields["title"] == Str("Error: Could not parse " + file)
  {
    match read
    case ReadError(_, m) => ErrorEntry(file, m)
    case Content(text) =>
      match parse(text)
      case SyntaxError(m) => ErrorEntry(file, m)
      case Parsed(data) =>
        if Nullish(data) then ErrorEntry(file, TypeErrorMessage)
        else Obj(map[
          "id" := Or(Get(data, "id"), Str(DefaultId(file))),
          "title" := Or(Get(data, "title"), Str("Untitled Report")),
          "description" := Or(Get(data, "description"), Str("No description available."))])
  }

  /** The `reportPromises` of lines 23-44: one entry per ".json" file, in directory order. */
  function Reports(names: seq<string>, readFile: Reader, parse: Parser): (r: seq<Value>)
    ensures |r| == |JsonFiles(names)|
    ensures forall i :: 0 <= i < |r| ==> r[i].Obj? && r[i].fields.Keys == {"id", "title", "description"}
  {
    var files := JsonFiles(names);
    seq(|files|, i requires 0 <= i < |files| => Entry(files[i], readFile(files[i]), parse))
  }

  const EmptyMessage := "No reports found in the directory."

  /** The `GET` handler; `reportsDir` is the directory path the message quotes. */
  function List(dir: DirListing, reportsDir: string, readFile: Reader, parse: Parser): (r: RouteResponse)
    ensures r.Reply?
    ensures r.status == 200 <==> dir.Listed?
    ensures r.status == 404 <==> dir.DirError? && dir.code == Enoent
  {
    match dir
    case DirError(code, m) =>
      if code == Enoent then DetailedError(404, "Reports directory not found.", Str("Directory " + reportsDir + " does not exist."))
      else DetailedError(500, "Failed to read reports directory.", Str(m))
    case Listed(names) =>
      var reports := Reports(names, readFile, parse);
      if |reports| == 0 then Reply(200, Obj(map["reports" := Arr([]), "message" := Str(EmptyMessage)]))
      else Reply(200, Obj(map["reports" := Arr(reports)]))
  }

  /**
   * A readable directory always answers 200 with one report per `.json` file,
   * in directory order; the explanatory message appears exactly when there
   * is none.
   */
  lemma ListingShape(names: seq<string>, reportsDir: string, readFile: Reader, parse: Parser)
    ensures var r := List(Listed(names), reportsDir, readFile, parse);
      && r.Reply? && r.status == 200 && r.body.Obj?
      && r.body.fields["reports"] == Arr(Reports(names, readFile, parse))
      && ("message" in r.body.fields <==> forall f :: f in names ==> !EndsWith(f, ".json"))
  {
    var files := JsonFiles(names);
    if |files| > 0 {
      assert files[0] in files;
    }
  }

  /** A missing directory is 404, any other read failure 500. */
  lemma DirectoryErrors(code: string, message: string, reportsDir: string, readFile: Reader, parse: Parser)
    ensures var r := List(DirError(code, message), reportsDir, readFile, parse);
      && r.Reply? && (r.status == 404 <==> code == Enoent) && (r.status == 500 <==> code != Enoent)
  {
  }

  /**
   * A parsed configuration supplies its own id, title and description when
   * they are truthy; otherwise the id comes from the file name and the others
   * from fixed defaults.
   */
  lemma ParsedEntry(file: string, text: string, parse: Parser)
    requires parse(text).Parsed? && !Nullish(parse(text).value)
    ensures var data := parse(text).value;
      var e := Entry(file, Content(text), parse);
      && e.Obj? && e.fields.Keys == {"id", "title", "description"}
      && e.fields["id"] == (if Truthy(Get(data, "id")) then Get(data, "id") else Str(DefaultId(file)))
      && e.fields["title"] == (if Truthy(Get(data, "title")) then Get(data, "title") else Str("Untitled Report"))
      && e.fields["description"] == (if Truthy(Get(data, "description")) then Get(data, "description") else Str("No description available."))
  {
  }

  /**
   * A file that cannot be read, does not parse, or parses to `null` is still
   * listed: its id comes from the file name, its title names the file, and
   * its description is the exception's message.
   */
  lemma FailedEntry(file: string, read: FileRead, parse: Parser)
    requires read.ReadError? || parse(read.text).SyntaxError? || Nullish(parse(read.text).value)
    ensures var e := Entry(file, read, parse);
      && e.fields["id"] == Str(DefaultId(file))
      && e.fields["title"] == Str("Error: Could not parse " + file)
      && e.fields["description"].Str?
      && (read.ReadError? ==> e.fields["description"] == Str(read.message))
      && (read.Content? && parse(read.text).SyntaxError? ==> e.fields["description"] == Str(parse(read.text).message))
  {
    var message := if read.ReadError? then read.message
      else if parse(read.text).SyntaxError? then parse(read.text).message
      else TypeErrorMessage;
    assert Entry(file, read, parse) == ErrorEntry(file, message);
  }

  /** The id of "sales.json" is "sales". */
  lemma DefaultIdStripsExtension()
    ensures DefaultId("sales.json") == "sales"
  {
    assert "sales.json" == "sales" + ".json" + "";
    ReplaceFirstAt("sales", ".json", "", "");
    assert "sales" + "" + "" == "sales";
  }

  /** Only the first ".json" is removed: "q1.json.json" is listed with id "q1.json". */
  lemma DefaultIdRemovesFirstOccurrence()
    ensures DefaultId("q1.json.json") == "q1.json"
  {
    assert "q1.json.json" == "q1" + ".json" + ".json";
    ReplaceFirstAt("q1", ".json", ".json", "");
    assert "q1" + "" + ".json" == "q1.json";
  }
}

/**
 * The account check behind the front desk (api/gardners/verifyAccount): the
 * accounts CSV becomes a map from upper-cased account code to bookseller
 * name, the caller's bookseller name is matched against the stored one in
 * either direction, and the Gardners web-service credentials are derived
 * from the account number when it matches. Reading the CSV file is an input.
 */
module VerifyAccount {
  import opened Wrappers
  import opened JsStrings
  import opened JsValues
  import opened Http

  /** `s.split(/\r?\n/)`: split at every line feed, dropping one carriage return before it. */
  function SplitLines(s: string): (r: seq<string>)
    ensures |r| >= 1
    decreases |s|
  {
    match IndexOf(s, "\n")
    case None => [s]
    case Some(i) =>
      var line := if i > 0 && s[i - 1] == '\r' then s[..i - 1] else s[..i];
      [line] + SplitLines(s[i + 1..])
  }

  /** `text.replace(/^"|"$/g, '')`: one leading and one trailing double quote removed. */
  function StripQuotes(text: string): (r: string)
    ensures |r| <= |text|
  {
    var t := if |text| > 0 && text[0] == '"' then text[1..] else text;
    if |t| > 0 && t[|t| - 1] == '"' then t[..|t| - 1] else t
  }

  /** A row's cells: the code is the text before the first comma, the name the rest with its commas. */
  function CodePart(line: string): string {
    match IndexOf(line, ",")
    case None => line
    case Some(i) => line[..i]
  }

  function NameRaw(line: string): string {
    match IndexOf(line, ",")
    case None => ""
    case Some(i) => line[i + 1..]
  }

  /**
   * The entry a data row contributes, if any: none for an empty line or an
   * empty code. The stored code is upper-cased, so it holds no lower-case
   * letter and lookups ignore the case of the account number.
   */
  function RowEntry(line: string): (r: Option<(string, string)>)
    ensures line == "" ==> r.None?
    ensures r.Some? ==> forall i :: 0 <= i < |r.value.0| ==> !('a' <= r.value.0[i] <= 'z')
  {
    if line == "" || CodePart(line) == "" then None
    else Some((Upper(Trim(CodePart(line))), Trim(StripQuotes(NameRaw(line)))))
  }

  /** The data rows: the trimmed content split into lines, without the header line. */
  function DataRows(csv: string): seq<string> {
    SplitLines(Trim(csv))[1..]
  }

  /** The entry of each row, in order. */
  function Entries(rows: seq<string>): (r: seq<Option<(string, string)>>)
    ensures |r| == |rows| && forall i :: 0 <= i < |rows| ==> r[i] == RowEntry(rows[i])
  {
    seq(|rows|, i requires 0 <= i < |rows| => RowEntry(rows[i]))
  }

  /** The map the entries build, each in turn overwriting any earlier one for its code. */
  function Build(entries: seq<Option<(string, string)>>): map<string, string> {
    if |entries| == 0 then map[]
    else
      var m := Build(entries[..|entries| - 1]);
      var e := entries[|entries| - 1];
      if e.Some? then m[e.value.0 := e.value.1] else m
  }

  /** `accountsMap` after all data rows. */
  function AccountsFrom(rows: seq<string>): map<string, string> {
    Build(Entries(rows))
  }

  /** Fills `accountsMap` row by row, as the route's `forEach` does. */
  method ParseAccounts(rows: seq<string>) returns (accountsMap: map<string, string>)
    ensures accountsMap == AccountsFrom(rows)
  {
    ghost var entries := Entries(rows);
    accountsMap := map[];
    var i := 0;
    while i < |rows|
      invariant 0 <= i <= |rows|
      invariant accountsMap == Build(entries[..i])
    {
      assert entries[..i + 1][..i] == entries[..i];
      var line := rows[i];
      if line != "" {
        var codePart := CodePart(line);
        var cleanName := Trim(StripQuotes(NameRaw(line)));
        if codePart != "" {
          accountsMap := accountsMap[Upper(Trim(codePart)) := cleanName];
        }
      }
      i := i + 1;
    }
    assert entries[..i] == entries;
  }

  predicate HasCode(e: Option<(string, string)>, code: string) {
    e.Some? && e.value.0 == code
  }

  /** A code is in the map exactly when some entry has it. */
  lemma {:induction false} CodeKnownIffSomeRow(entries: seq<Option<(string, string)>>, code: string)
    ensures code in Build(entries) <==> exists i :: 0 <= i < |entries| && HasCode(entries[i], code)
  {
    if |entries| > 0 {
      var init := entries[..|entries| - 1];
      CodeKnownIffSomeRow(init, code);
      if code in Build(init) {
        var i :| 0 <= i < |init| && HasCode(init[i], code);
        assert entries[i] == init[i];
      }
      if exists i :: 0 <= i < |entries| && HasCode(entries[i], code) {
        var i :| 0 <= i < |entries| && HasCode(entries[i], code);
        if i < |init| {
          assert entries[i] == init[i];
        }
      }
    }
  }

  /** The name stored for a code is the one of the last entry with that code. */
  lemma {:induction false} LastRowWins(entries: seq<Option<(string, string)>>, code: string)
    requires code in Build(entries)
    ensures exists i :: && 0 <= i < |entries| && entries[i] == Some((code, Build(entries)[code]))
                        && forall j :: i < j < |entries| ==> !HasCode(entries[j], code)
  {
    var init := entries[..|entries| - 1];
    var last := |entries| - 1;
    if !HasCode(entries[last], code) {
      assert code in Build(init) && Build(init)[code] == Build(entries)[code];
      LastRowWins(init, code);
      var i :| && 0 <= i < |init| && init[i] == Some((code, Build(init)[code]))
               && forall j :: i < j < |init| ==> !HasCode(init[j], code);
      assert entries[i] == init[i];
      forall j | i < j < |entries|
        ensures !HasCode(entries[j], code)
      {
        if j < |init| {
          assert entries[j] == init[j];
        }
      }
    }
  }

  /**
   * Over the CSV's data rows: a code is known exactly when some row has it,
   * and then carries the name of the last such row.
   */
  lemma LaterRowOverwrites(rows: seq<string>, code: string)
    ensures code in AccountsFrom(rows) <==> exists i :: 0 <= i < |rows| && HasCode(RowEntry(rows[i]), code)
    ensures code in AccountsFrom(rows) ==>
      exists i :: && 0 <= i < |rows| && RowEntry(rows[i]) == Some((code, AccountsFrom(rows)[code]))
                  && forall j :: i < j < |rows| ==> !HasCode(RowEntry(rows[j]), code)
  {
    var entries := Entries(rows);
    CodeKnownIffSomeRow(entries, code);
    if code in AccountsFrom(rows) {
      LastRowWins(entries, code);
    }
  }

  /** The name test: one lower-cased, trimmed name contains the other; names equal up to case and padding always match. */
  predicate NamesMatch(provided: string, expected: string)
    ensures Lower(Trim(provided)) == Lower(Trim(expected)) ==> NamesMatch(provided, expected)
  {
    var p := Lower(Trim(provided));
    var e := Lower(Trim(expected));
    assert e[0..|e|] == e;
    assert p == e ==> OccursAt(e, p, 0);
    Includes(p, e) || Includes(e, p)
  }

  lemma NamesMatchSymmetric(a: string, b: string)
    ensures NamesMatch(a, b) <==> NamesMatch(b, a)
  {
  }

  /** A bookseller name of nothing but whitespace matches every stored name. */
  lemma BlankNameMatchesAll(provided: string, expected: string)
    requires AllSpace(provided)
    ensures NamesMatch(provided, expected)
  {
    TrimPadding(provided, "", "");
    assert provided + "" + "" == provided;
    assert Trim("") == "";
    var e := Lower(Trim(expected));
    assert OccursAt(e, "", 0);
  }

  /** `username` and `password` for a verified account number. */
  function Username(accountNumber: string): string {
    accountNumber + "GFW@" + accountNumber
  }

  function Password(accountNumber: string): string {
    "GardAP1@" + Lower(accountNumber)
  }

  /** `{ verified, username, password }` */
  function Outcome(verified: bool, username: string, password: string): Value {
    Obj(map["verified" := Bool(verified), "username" := Str(username), "password" := Str(password)])
  }

  /** The stored name for an account number, when it is present and non-empty. */
  function ExpectedName(accounts: map<string, string>, accountNumber: string): Option<string> {
    var code := Upper(Trim(accountNumber));
    if code in accounts && accounts[code] != "" then Some(accounts[code]) else None
  }

  /**
   * The route's answer, given the parsed request body and the CSV file
   * (`None` when it cannot be read). Calling `trim` on a field that is not a
   * string throws, and so does destructuring a `null` body.
   */
  function Verdict(body: ParseResult, csv: Option<string>): (r: RouteResponse)
    ensures r.Reply? ==> r.status == 200 || r.status == 400 || r.status == 500
    ensures r.Crash? ==> || body.SyntaxError? || Nullish(body.value)
                         || !Get(body.value, "accountNumber").Str? || !Get(body.value, "booksellerName").Str?
    ensures body.Parsed? && !Nullish(body.value) && Truthy(Get(body.value, "accountNumber"))
            && Truthy(Get(body.value, "booksellerName")) && csv.None?
            ==> r == ErrorReply(500, "Could not read accounts data")
  {
    if body.SyntaxError? || Nullish(body.value) then Crash
    else
      var accountNumber := Get(body.value, "accountNumber");
      var booksellerName := Get(body.value, "booksellerName");
      if !Truthy(accountNumber) || !Truthy(booksellerName) then ErrorReply(400, "Missing accountNumber or booksellerName")
      else if csv.None? then ErrorReply(500, "Could not read accounts data")
      else if !accountNumber.Str? then Crash
      else
        var expected := ExpectedName(AccountsFrom(DataRows(csv.value)), accountNumber.s);
        if expected.Some? && !booksellerName.Str? then Crash
        else
          var verified := expected.Some? && NamesMatch(booksellerName.s, expected.value);
          Reply(200, Outcome(verified,
                             if verified then Username(accountNumber.s) else "",
                             if verified then Password(accountNumber.s) else ""))
  }

  /** `POST /api/gardners/verifyAccount` */
  method Post(body: ParseResult, csv: Option<string>) returns (resp: RouteResponse)
    ensures resp == Verdict(body, csv)
  {
    if body.SyntaxError? || Nullish(body.value) {
      return Crash;
    }
    var accountNumber := Get(body.value, "accountNumber");
    var booksellerName := Get(body.value, "booksellerName");
    if !Truthy(accountNumber) || !Truthy(booksellerName) {
      return ErrorReply(400, "Missing accountNumber or booksellerName");
    }
    if csv.None? {
      return ErrorReply(500, "Could not read accounts data");
    }
    var accountsMap := ParseAccounts(DataRows(csv.value));
    if !accountNumber.Str? {
      return Crash;
    }
    var expectedNameRaw := ExpectedName(accountsMap, accountNumber.s);
    var verified := false;
    if expectedNameRaw.Some? {
      if !booksellerName.Str? {
        return Crash;
      }
      verified := NamesMatch(booksellerName.s, expectedNameRaw.value);
    }
    var username := "";
    var password := "";
    if verified {
      username := Username(accountNumber.s);
      password := Password(accountNumber.s);
    }
    return Reply(200, Outcome(verified, username, password));
  }

  /** A missing or empty account number or bookseller name is a 400, before the CSV is looked at. */
  lemma MissingFieldRejected(body: ParseResult, csv: Option<string>, other: Option<string>)
    requires body.Parsed? && !Nullish(body.value)
    requires !Truthy(Get(body.value, "accountNumber")) || !Truthy(Get(body.value, "booksellerName"))
    ensures Verdict(body, csv) == ErrorReply(400, "Missing accountNumber or booksellerName")
    ensures Verdict(body, csv) == Verdict(body, other)
  {
  }

  /**
   * A successful answer carries credentials exactly when it says
   * `verified`, and they are derived from the account number as sent.
   */
  lemma CredentialsOnlyWhenVerified(body: ParseResult, csv: Option<string>)
    requires Verdict(body, csv).Reply? && Verdict(body, csv).status == 200
    ensures var o := Verdict(body, csv).body;
      var accountNumber := Get(body.value, "accountNumber");
      && body.Parsed? && accountNumber.Str?
      && o.Obj? && o.fields.Keys == {"verified", "username", "password"}
      && o.fields["verified"].Bool?
      && (o.fields["verified"].b ==>
            o.fields["username"] == Str(accountNumber.s + "GFW@" + accountNumber.s)
            && o.fields["password"] == Str("GardAP1@" + Lower(accountNumber.s)))
      && (!o.fields["verified"].b ==> o.fields["username"] == Str("") && o.fields["password"] == Str(""))
  {
  }

  /** The answer is `verified` exactly when the account is known with a name that matches in either direction. */
  lemma VerifiedIffNamesMatch(body: ParseResult, csv: Option<string>)
    requires Verdict(body, csv).Reply? && Verdict(body, csv).status == 200
    ensures var accountNumber := Get(body.value, "accountNumber");
      var booksellerName := Get(body.value, "booksellerName");
      var expected := ExpectedName(AccountsFrom(DataRows(csv.value)), accountNumber.s);
      && csv.Some? && accountNumber.Str?
      && (Verdict(body, csv).body.fields["verified"] == Bool(true)
          <==> expected.Some? && booksellerName.Str? && NamesMatch(booksellerName.s, expected.value)
               && NamesMatch(expected.value, booksellerName.s))
  {
    var accountNumber := Get(body.value, "accountNumber");
    var booksellerName := Get(body.value, "booksellerName");
    var expected := ExpectedName(AccountsFrom(DataRows(csv.value)), accountNumber.s);
    if expected.Some? && booksellerName.Str? {
      NamesMatchSymmetric(booksellerName.s, expected.value);
    }
  }

  /** A bookseller name of only whitespace is present, and verifies every known account. */
  lemma BlankNameVerifiesKnownAccount(body: ParseResult, csv: string)
    requires body.Parsed? && !Nullish(body.value)
    requires Get(body.value, "accountNumber").Str? && Get(body.value, "accountNumber").s != ""
    requires Get(body.value, "booksellerName").Str? && Get(body.value, "booksellerName").s != ""
    requires AllSpace(Get(body.value, "booksellerName").s)
    requires ExpectedName(AccountsFrom(DataRows(csv)), Get(body.value, "accountNumber").s).Some?
    ensures var a := Get(body.value, "accountNumber").s;
      Verdict(body, Some(csv)) == Reply(200, Outcome(true, Username(a), Password(a)))
  {
    var expected := ExpectedName(AccountsFrom(DataRows(csv)), Get(body.value, "accountNumber").s);
    BlankNameMatchesAll(Get(body.value, "booksellerName").s, expected.value);
  }

  /** A line without a line feed, ended by LF or CRLF, is split off whole. */
  lemma SplitLine(line: string, sep: string, rest: string)
    requires sep == "\n" || sep == "\r\n"
    requires forall j :: 0 <= j < |line| ==> line[j] != '\n'
    requires sep == "\n" && |line| > 0 ==> line[|line| - 1] != '\r'
    ensures SplitLines(line + sep + rest) == [line] + SplitLines(rest)
  {
    var s := line + sep + rest;
    var i := |line| + |sep| - 1;
    assert s[i] == '\n';
    assert forall j :: 0 <= j < i ==> s[j] != '\n' by {
      forall j | 0 <= j < i ensures s[j] != '\n' {
        if j < |line| { assert s[j] == line[j]; } else { assert s[j] == '\r'; }
      }
    }
    FirstChar(s, '\n', i);
    assert s[i + 1..] == rest;
    if sep == "\n" {
      assert s[..i] == line;
    } else {
      assert s[i - 1] == '\r' && s[..i - 1] == line;
    }
  }

  lemma SplitsLf()
    ensures SplitLines("A1,x\nB2,y") == ["A1,x", "B2,y"]
  {
    NoChar("B2,y", '\n');
    assert SplitLines("B2,y") == ["B2,y"];
    assert "A1,x\nB2,y" == "A1,x" + "\n" + "B2,y";
    SplitLine("A1,x", "\n", "B2,y");
  }

  lemma SplitsCrLf()
    ensures SplitLines("code,name\r\nA1,x\nB2,y") == ["code,name", "A1,x", "B2,y"]
  {
    assert "code,name\r\nA1,x\nB2,y" == "code,name" + "\r\n" + "A1,x\nB2,y";
    SplitLine("code,name", "\r\n", "A1,x\nB2,y");
    SplitsLf();
  }

  /** Lines are split at LF and CRLF alike; the data rows start after the header line. */
  lemma SplitsCrLfAndLf()
    ensures SplitLines("code,name\r\nA1,x\nB2,y") == ["code,name", "A1,x", "B2,y"]
    ensures DataRows("code,name\r\nA1,x\nB2,y") == ["A1,x", "B2,y"]
  {
    var s1 := "code,name\r\nA1,x\nB2,y";
    assert s1[0] == 'c' && s1[|s1| - 1] == 'y';
    TrimUnchanged(s1);
    SplitsCrLf();
  }

  lemma QuotedRowCells()
    ensures CodePart("ab12 ,\"Smith, Jones\"") == "ab12 "
    ensures NameRaw("ab12 ,\"Smith, Jones\"") == "\"Smith, Jones\""
  {
    FirstChar("ab12 ,\"Smith, Jones\"", ',', 5);
  }

  lemma QuotedRowParts()
    ensures Upper(Trim("ab12 ")) == "AB12"
    ensures Trim(StripQuotes("\"Smith, Jones\"")) == "Smith, Jones"
  {
    assert "ab12 " == "" + "ab12" + " ";
    TrimPadding("", "ab12", " ");
    TrimUnchanged("ab12");
    assert StripQuotes("\"Smith, Jones\"") == "Smith, Jones";
    TrimUnchanged("Smith, Jones");
  }

  /** A row's code is trimmed and upper-cased; the name keeps its commas and loses its quotes. */
  lemma QuotedNameWithComma()
    ensures RowEntry("ab12 ,\"Smith, Jones\"") == Some(("AB12", "Smith, Jones"))
  {
    QuotedRowCells();
    QuotedRowParts();
  }
}

# Realtime agents: dispatcher, tools and API routes

This project models the core of a Next.js app built on the OpenAI
Realtime API. A browser session talks to the realtime model. The model
speaks and emits function calls. A dispatcher answers those calls with
the active agent's tools, or hands the conversation to another agent.
The agents cover three scenarios:

- a Gardners book-trade front desk and sales agent, which validate
  EAN-13 codes, look up and search products, and list and run Gardlink
  reports;
- a "spoof caller" switchboard that wires a director, a switchboard and
  seven departments to each other;
- a witness interviewer that records facts and checks new ones for
  contradictions.

The Gardners tools call the app's own API routes, which are modelled
too: account verification against a CSV file, product search, the
report listing, the report run and the report file reader.

The model has these parts:

- **JavaScript values** (`JsValues`, `JsStrings`). A `Value` datatype
  holds `undefined`, `null`, booleans, integer numbers, strings, arrays
  and objects. Truthiness, `||`, property reads, `String(v)`, `trim`,
  `toLowerCase`/`toUpperCase`, `indexOf`, `replace` with a string
  pattern and `parseInt(s, 10)` are written out. `parseInt` returns
  `None` for NaN.
- **Foreign services as parameters.** `fetch` is a function from the
  request a tool would send to its outcome (`Fetch`). A file read is a
  function from the file name to its content or its error (`Files`).
  `JSON.parse` is a `Parser`. `uuidv4()` and the clock are plain
  arguments. The report route gets the SQLite password lookup, the
  database, `JSON.stringify` and the temp-file writes as an `Env`, and
  records what it asks of them as a trace of effects.
- **The dispatcher** (`HandleServerEvent`, `Transcript`).
  - Pure functions `CallStep` and `EventStep` say what
    `handleFunctionCall` and `handleServerEvent` do to the observable
    state: the transcript, the active agent, the transfer flag, the
    report viewer, the session status and the outbound events in order.
  - A `Session` class performs the same steps on mutable fields. Each
    of its methods is proved to agree with those functions.
  - Every call of one `response.done` runs in the closure captured when
    the event arrived, as the React hook does. A transfer in one call
    therefore does not change how a later call of the same response
    looks up its tool.
  - `HandleServerEventProps` and `GardnersScenario` prove properties of
    the dispatcher.
- **The agents' tools.** `GardnersSalesAgent`, `SalesAgent`,
  `ConsistencyChecker`, the `FactTracker.FactLog` class (its module-level
  `facts` list) and `SpoofCaller`. The wiring of the spoof caller
  scenario is a method over `AgentConfig` objects whose
  `downstreamAgents` fields it assigns.
- **The API routes.** `VerifyAccount`, `SearchRoute`,
  `ListGardlinkReports`, `GetReportFileContent` and `RunGardlinkReport`.
  The report run is also a `TempReports` class holding the files of
  `tmp/reports`.
- **The EAN scripts.** `TestEan` models the two sample scripts as loops
  over their sample tables.

Behaviour of the code that the model keeps as written:

- `isValidEan13` trims its argument before checking it, but
  `retrieveBookInfo` sends the untrimmed EAN in the product request.
- The front desk's prompt tells it to transfer to `'salesAgent'`, but the
  agent is configured under the name `gardnersSalesAgent`. The prompted
  transfer is answered with `did_transfer: false`.
- All calls of one `response.done` are looked up on the agent that was
  active when the event arrived.
- A bookseller name made only of white space passes the "present" test
  and then matches every stored name.
- A missing username or password in `searchGardnersAPI` is sent as the
  text "undefined", which passes the search route's credential check.
- The `fileId` character class `[a-f0-9\\-]` also admits a backslash.
- The report id of the run route is used in a file path without any check.
- `file.replace('.json', '')` removes only the first occurrence.

## Model

| member | source | states |
|---|---|---|
| JsValues.Or | src/app/agentConfigs/gardnersAgent/gardnersSalesAgent.ts:406 | `a \|\| b` is `a` when `a` is truthy and `b` otherwise |
| JsValues.Get | src/app/hooks/useHandleServerEvent.ts:54 | a property read that is not `undefined` comes from an own field of an object |
| JsStrings.ParseIntOfIntToString | src/app/api/gardners/search/route.ts:38 | `parseInt` reads back every integer that `String` writes, so a numeric product type survives the trip through the query string |
| Http.QueryGet | src/app/api/gardners/search/route.ts:11-16 | `URLSearchParams.get` is `null` exactly when no pair has the key, and otherwise the value of the first pair with it |
| Ean13.Digits | src/app/agentConfigs/gardnersAgent/gardnersSalesAgent.ts:10 | a digit string maps to one number below 10 per character, in order |
| Ean13.CheckDigit | src/app/agentConfigs/gardnersAgent/gardnersSalesAgent.ts:11-13 | the computed check digit is always in 0..9 |
| Ean13.IsValidEan13 | src/app/agentConfigs/gardnersAgent/gardnersSalesAgent.ts:6-15 | a value passes only if it is a string whose trimmed text is 13 ASCII digits and whose last digit equals the computed check digit (both directions, against the GS1 rule, in ValidIffGs1) |
| Ean13.Gs1SumIsWeightedSum | src/app/agentConfigs/gardnersAgent/gardnersSalesAgent.ts:11-14 | the left-to-right 1/3 weighting of twelve digits plus the check digit is the GS1 right-to-left weighted sum |
| Ean13.ValidIffGs1 | src/app/agentConfigs/gardnersAgent/gardnersSalesAgent.ts:6-15 | a value passes exactly when it is a string whose trimmed text is 13 ASCII digits with a GS1 weighted sum divisible by 10 |
| Ean13.ValidOfDigits | src/app/agentConfigs/gardnersAgent/gardnersSalesAgent.ts:9-14 | on a 13-digit text the verdict is the comparison of the computed check digit with the last digit |
| Ean13.UniqueCompletion | src/app/agentConfigs/gardnersAgent/gardnersSalesAgent.ts:13-14 | every 12-digit prefix has exactly one valid 13th digit |
| Ean13.WeightedSumAfterUpdate | src/app/agentConfigs/gardnersAgent/gardnersSalesAgent.ts:11-12 | changing one digit changes the weighted sum by the difference times that position's weight |
| Ean13.SingleDigitErrorDetected | src/app/agentConfigs/gardnersAgent/gardnersSalesAgent.ts:11-14 | changing any one digit of a valid code to another digit makes it invalid |
| Ean13.TrimOfDigits | src/app/agentConfigs/gardnersAgent/gardnersSalesAgent.ts:8 | trimming leaves a digit string unchanged |
| Ean13.PaddingIgnored | src/app/agentConfigs/gardnersAgent/gardnersSalesAgent.ts:8 | leading and trailing white space never changes the verdict |
| TestEan.RunSamples | test-ean.js:21-23 | the loop stops at the first sample whose verdict differs from its expectation, and runs to the end exactly when every verdict matches |
| TestEan.Verdict | test-ean.js:3-11 | the verdict on a concrete 13-digit code is its twelve-term weighted sum compared with the last digit |
| TestEan.Sample0 | test-ean.js:14 | 4006381333931 is valid |
| TestEan.Sample1 | test-ean.js:15 | 1234567890123 is invalid |
| TestEan.Sample2 | test-ean.js:16 | 9783161484100 is valid |
| TestEan.Sample3 | test-ean.js:17 | 9780571363611 is invalid |
| TestEan.Sample4 | test-ean.js:18 | 9780571366361 is valid |
| TestEan.Sample3CheckDigit | test-ean.js:17 | 9780571363611 fails because its check digit should be 2 |
| TestEan.AllSamplesAgree | test-ean.js:13-19 | every sample of the JavaScript script gets its expected verdict |
| TestEan.TestEanScript | test-ean.js:21-25 | the JavaScript script reaches its last line: no sample stops it |
| TestEan.TsScriptStopsAtFourthSample | test-ean.ts:12-14 | the TypeScript script stops at its fourth sample, and its fifth expectation is wrong as well |
| GardnersSalesAgent.IsValidEan13Tool | src/app/agentConfigs/gardnersAgent/gardnersSalesAgent.ts:347 | the tool rejects exactly when its arguments are `null`/`undefined`, and otherwise returns the EAN verdict |
| GardnersSalesAgent.RetrieveBookInfo | src/app/agentConfigs/gardnersAgent/gardnersSalesAgent.ts:348-369 | an invalid EAN throws "Invalid EAN-13 format: " and the EAN; a record is returned only for a valid EAN whose product request was answered ok |
| GardnersSalesAgent.WithImageUrl | src/app/agentConfigs/gardnersAgent/gardnersSalesAgent.ts:362-368 | a `null` record throws; an object record keeps every field other than `imageUrl`; any other value is returned as it is |
| GardnersSalesAgent.InvalidEanRejectedBeforeFetch | src/app/agentConfigs/gardnersAgent/gardnersSalesAgent.ts:351-353 | an invalid EAN is rejected with "Invalid EAN-13 format: <ean>" whatever `fetch` would answer, so nothing is sent |
| GardnersSalesAgent.ProductLookupIsTheOnlyRequest | src/app/agentConfigs/gardnersAgent/gardnersSalesAgent.ts:355-362 | for a valid EAN the outcome depends on the product lookup alone, which carries the EAN as given, untrimmed |
| GardnersSalesAgent.ImageUrlIffLocation | src/app/agentConfigs/gardnersAgent/gardnersSalesAgent.ts:364-368 | the record gains `imageUrl` = jacket base + location exactly when `Book.ImageLocation` is truthy; no other field changes |
| GardnersSalesAgent.BuildSearchParams | src/app/agentConfigs/gardnersAgent/gardnersSalesAgent.ts:372-377 | the appended pairs are the search query of the arguments |
| GardnersSalesAgent.SearchQueryShape | src/app/agentConfigs/gardnersAgent/gardnersSalesAgent.ts:372-377 | keyword, author and productType are in the query exactly when truthy (a productType of 0 is dropped); username and password always end it |
| GardnersSalesAgent.SearchFailure | src/app/agentConfigs/gardnersAgent/gardnersSalesAgent.ts:396 | the rethrown message is never empty, and is the caught message whenever that is non-empty |
| GardnersSalesAgent.SearchGardnersApi | src/app/agentConfigs/gardnersAgent/gardnersSalesAgent.ts:370-398 | the tool returns exactly when the search request is answered ok with a parsed body, and then returns that body; every rejection has a non-empty message |
| GardnersSalesAgent.ListingShape | src/app/agentConfigs/gardnersAgent/gardnersSalesAgent.ts:399-423 | the tool answers `{reports, message}` exactly for an ok, parsed response without a truthy `error` and with truthy `reports`; everything else is `{error, details}` |
| GardnersSalesAgent.ListGardlinkReports | src/app/agentConfigs/gardnersAgent/gardnersSalesAgent.ts:399-423 | the tool never rejects, and its result holds `reports` exactly when it holds no `error` |
| GardnersSalesAgent.RunResultShape | src/app/agentConfigs/gardnersAgent/gardnersSalesAgent.ts:444-458 | a response without a truthy `error` succeeds exactly when well formed; success passes count, records, file id and report id through; otherwise the result has `error` only |
| GardnersSalesAgent.RunResult | src/app/agentConfigs/gardnersAgent/gardnersSalesAgent.ts:439-458 | the result holds `reportId` exactly when it holds no `error`; then the response was well formed, and its count and file id are passed on under the caller's report id |
| GardnersSalesAgent.RunGardlinkReport | src/app/agentConfigs/gardnersAgent/gardnersSalesAgent.ts:424-463 | the tool throws exactly on `null` arguments; a returned object holds `reportId` exactly when it holds no `error` |
| GardnersSalesAgent.Tools | src/app/agentConfigs/gardnersAgent/gardnersSalesAgent.ts:346-464 | the `toolLogic` map has exactly the five tools isValidEan13, retrieveBookInfo, searchGardnersAPI, listGardlinkReports and runGardlinkReport |
| GardnersSalesAgent.Config | src/app/agentConfigs/gardnersAgent/gardnersSalesAgent.ts:20-465 | the configuration is named "gardnersSalesAgent" and offers exactly those tool names |
| GardnersSalesAgent.OnlyWellFormedRunsOpenViewer | src/app/agentConfigs/gardnersAgent/gardnersSalesAgent.ts:434-458 | a run result that opens the report viewer came from an ok, parsed, well-formed response whose `reportFileId` is the id shown |
| SalesAgent.Tools | src/app/agentConfigs/gardnersAgent/salesAgent.ts:250-339 | the sales agent has four tools, each identical to the same-named tool of the Gardners sales agent (no search tool) |
| SalesAgent.Config | src/app/agentConfigs/gardnersAgent/salesAgent.ts:20-21 | the configuration is named "gardnersSalesAgent" and carries those tools |
| SalesAgent.RetrieveRejectsInvalidEan | src/app/agentConfigs/gardnersAgent/salesAgent.ts:255-257 | an invalid EAN is rejected with its message whatever `fetch` would answer |
| SalesAgent.RetrieveAddsImageUrl | src/app/agentConfigs/gardnersAgent/salesAgent.ts:266-272 | a product object comes back with `imageUrl` exactly when `Book.ImageLocation` is truthy, otherwise unchanged |
| SalesAgent.RunReportResult | src/app/agentConfigs/gardnersAgent/salesAgent.ts:314-333 | on an ok response without a truthy `error`, a malformed report gives `{error}` alone and a well-formed one passes id, count, records and file id through |
| ConsistencyChecker.KeepAllowed | src/app/agentConfigs/witnessInterviewer/consistencyChecker.ts:5 | the character filter never lengthens the text and keeps only lower-case ASCII letters, digits and white space |
| ConsistencyChecker.KeepAllowedAppend | src/app/agentConfigs/witnessInterviewer/consistencyChecker.ts:5 | the filter distributes over concatenation, so it works character by character and keeps the order of what it keeps |
| ConsistencyChecker.KeepAllowedChar | src/app/agentConfigs/witnessInterviewer/consistencyChecker.ts:5 | a single character survives exactly when it is a lower-case ASCII letter, a digit or white space |
| ConsistencyChecker.KeepAllowedOfRemoved | src/app/agentConfigs/witnessInterviewer/consistencyChecker.ts:5 | text made only of characters outside the class disappears entirely |
| ConsistencyChecker.KeepAllowedOfKept | src/app/agentConfigs/witnessInterviewer/consistencyChecker.ts:5 | the filter leaves a text of allowed characters unchanged |
| ConsistencyChecker.Normalize | src/app/agentConfigs/witnessInterviewer/consistencyChecker.ts:5 | a normalised statement has only allowed characters and no white space at either end |
| ConsistencyChecker.NormalizeIgnoresCaseAndPunctuation | src/app/agentConfigs/witnessInterviewer/consistencyChecker.ts:5 | a statement that lower-cases to a normal one keeps that normal form whatever punctuation follows it |
| ConsistencyChecker.NormalizePrefixed | src/app/agentConfigs/witnessInterviewer/consistencyChecker.ts:5 | a word in any case before a normal statement, with trailing punctuation, normalises to the lower-cased word followed by the statement |
| ConsistencyChecker.NormalizeNormal | src/app/agentConfigs/witnessInterviewer/consistencyChecker.ts:5 | normalising a normal statement changes nothing, so normalising twice is normalising once |
| ConsistencyChecker.SameNormalFormNeverContradicts | src/app/agentConfigs/witnessInterviewer/consistencyChecker.ts:8 | statements with the same normal form never contradict, in either order |
| ConsistencyChecker.ContradictsSymmetric | src/app/agentConfigs/witnessInterviewer/consistencyChecker.ts:9-11 | contradiction is symmetric |
| ConsistencyChecker.NotContradicts | src/app/agentConfigs/witnessInterviewer/consistencyChecker.ts:9 | "not X" contradicts a non-empty normal X, in both orders |
| ConsistencyChecker.NoContradicts | src/app/agentConfigs/witnessInterviewer/consistencyChecker.ts:10-11 | "no X" contradicts a non-empty normal X, in both orders |
| ConsistencyChecker.CapitalisedNegationContradicts | src/app/agentConfigs/witnessInterviewer/consistencyChecker.ts:4-13 | a capitalised, punctuated "Not X!" or "No X." contradicts a non-empty normal X, in both orders |
| ConsistencyChecker.NotRedContradictsRed | src/app/agentConfigs/witnessInterviewer/consistencyChecker.ts:4-13 | the concrete statement "Not red!" contradicts "red" |
| ConsistencyChecker.DoubleNegationIsNotContradiction | src/app/agentConfigs/witnessInterviewer/consistencyChecker.ts:9-12 | "not not X" does not contradict X: only one level of negation counts |
| ConsistencyChecker.NotNotXIsNotAContradictionOfX | src/app/agentConfigs/witnessInterviewer/consistencyChecker.ts:9-12 | "not not x" does not contradict "x" |
| ConsistencyChecker.Contradicts | src/app/agentConfigs/witnessInterviewer/consistencyChecker.ts:4-13 | a contradiction needs a "not " or "no " prefix on one side, so the two normal forms always differ in length |
| ConsistencyChecker.Filter | src/app/agentConfigs/witnessInterviewer/consistencyChecker.ts:40 | the filtered list is never longer than the facts, and every fact it keeps is one of the facts and contradicts the new one |
| ConsistencyChecker.FilterMembers | src/app/agentConfigs/witnessInterviewer/consistencyChecker.ts:40 | a fact is kept exactly when it is one of the facts and contradicts the new one |
| ConsistencyChecker.FilterAppend | src/app/agentConfigs/witnessInterviewer/consistencyChecker.ts:40 | the filter keeps the facts' order: it distributes over concatenation |
| ConsistencyChecker.FetchFacts | src/app/agentConfigs/witnessInterviewer/consistencyChecker.ts:15-31 | a parsed, non-null answer whose `facts` is an array yields exactly that array; a rejected fetch, an unparsable or null body, or a `facts` that is not an array yields the local list |
| ConsistencyChecker.CheckReportsContradictingFacts | src/app/agentConfigs/witnessInterviewer/consistencyChecker.ts:33-42 | for string facts the tool returns `{contradictions}`, holding exactly the fetched facts that contradict the new one |
| ConsistencyChecker.CheckContradictions | src/app/agentConfigs/witnessInterviewer/consistencyChecker.ts:33-42 | `null` arguments throw; with no facts the answer is an empty list whatever the fact; a returned value is exactly `{contradictions}`, an array whose every element is one of the fetched facts |
| FactTracker.FactLog.constructor | src/app/agentConfigs/witnessInterviewer/factTracker.ts:3 | the log starts with no facts and nothing posted |
| FactTracker.FactLog.Load | src/app/agentConfigs/witnessInterviewer/factTracker.ts:5-15 | the API's `facts` array replaces the list exactly when the response parses to a value whose `facts` is an array; any failure keeps the list |
| FactTracker.FactLog.AddFact | src/app/agentConfigs/witnessInterviewer/factTracker.ts:17-31 | a truthy fact is appended and posted, a falsy one changes nothing, `null` arguments reject; the answer is `{facts}` with the current list whatever the post came to |
| SpoofCaller.OthersByName | src/app/agentConfigs/spoofCaller/index.ts:18 | the filter keeps only departments whose name differs from the given one |
| SpoofCaller.OthersOfDistinct | src/app/agentConfigs/spoofCaller/index.ts:18 | with distinct names, filtering out one department's name removes exactly that department and keeps the order |
| SpoofCaller.DepartmentNamesDistinct | src/app/agentConfigs/spoofCaller/index.ts:16 | the seven departments have seven distinct names |
| SpoofCaller.ExportedNamesDistinct | src/app/agentConfigs/spoofCaller/index.ts:21-31 | the nine exported agents have distinct names |
| SpoofCaller.Wire | src/app/agentConfigs/spoofCaller/index.ts:13-19 | the director lists the switchboard, the switchboard lists the departments, and each department lists the switchboard followed by all other departments in order |
| SpoofCaller.Configure | src/app/agentConfigs/spoofCaller/index.ts:13-31 | the exported list is director, switchboard, departments, wired as above |
| SpoofCaller.WiringShape | src/app/agentConfigs/spoofCaller/index.ts:13-19 | no agent lists itself or the director, and every listed agent is one of the nine |
| SpoofCaller.SwitchboardTransfersToDepartment | src/app/hooks/useHandleServerEvent.ts:101-152 | a switchboard transfer to a department makes it active, sends the transfer output, a hidden user "hi" and a response request |
| SpoofCaller.SwitchboardCallTransfers | src/app/hooks/useHandleServerEvent.ts:101-152 | the switchboard's `transferAgents` call to a department switches to it, adds the hidden "hi", and sends the call output, the greeting and a response request |
| SearchRoute.BuildPayload | src/app/api/gardners/search/route.ts:26-43 | the payload built field by field is the one the payload function describes, or the NaN exit |
| SearchRoute.SearchPayload | src/app/api/gardners/search/route.ts:26-43 | the payload always has the paging fields, and a product type is refused only when one was given (the full shape is PayloadShape) |
| SearchRoute.PayloadShape | src/app/api/gardners/search/route.ts:26-43 | paging defaults 10 and 1; `Keyword`/`Author` present exactly when given; `ProductType` exactly when given and parsed; a given product type without a leading integer is refused |
| SearchRoute.CredentialsCheckedFirst | src/app/api/gardners/search/route.ts:18-20 | missing credentials give 400 whatever the criteria, and nothing is sent |
| SearchRoute.CriterionRequired | src/app/api/gardners/search/route.ts:22-24 | with credentials, the "no criterion" 400 happens exactly when no criterion is given, and sends nothing |
| SearchRoute.Search | src/app/api/gardners/search/route.ts:9-83 | the handler always answers (the `catch` turns a failed call into a reply), and every answer with a status other than 200 carries an `error` field |
| SearchRoute.ForwardsToGardners | src/app/api/gardners/search/route.ts:45-82 | a valid query sends one upstream request with the credentials and payload; a failed status is passed through, a parsed body returned unchanged, a rejection is 500 with its message |
| SearchRoute.AbcIsNaN | src/app/api/gardners/search/route.ts:38-39 | `parseInt("abc", 10)` is NaN |
| SearchRoute.ProductTypeNaNRefused | src/app/api/gardners/search/route.ts:37-41 | a given product type without a leading integer is 400 before anything is sent |
| SearchRoute.NonNumericProductTypeRefused | src/app/api/gardners/search/route.ts:37-41 | the query `productType=abc` with credentials is refused with 400 |
| SearchRoute.LeadingIntegerAccepted | src/app/api/gardners/search/route.ts:38-42 | "12abc" is sent as product type 12 |
| SearchRoute.ToolQueryReadsBack | src/app/api/gardners/search/route.ts:11-16 | the route reads back each criterion the tool found truthy and both credentials; a missing username arrives as "undefined" and counts as given |
| VerifyAccount.SplitLines | src/app/api/gardners/verifyAccount/route.ts:23 | splitting always yields at least one line |
| VerifyAccount.SplitLine | src/app/api/gardners/verifyAccount/route.ts:23 | a line without a line feed, ended by LF or CRLF, is split off whole |
| VerifyAccount.SplitsLf | src/app/api/gardners/verifyAccount/route.ts:23 | lines are split at LF |
| VerifyAccount.SplitsCrLf | src/app/api/gardners/verifyAccount/route.ts:23 | lines are split at CRLF, and the carriage return is dropped |
| VerifyAccount.SplitsCrLfAndLf | src/app/api/gardners/verifyAccount/route.ts:23 | LF and CRLF split alike, and the data rows start after the header |
| VerifyAccount.StripQuotes | src/app/api/gardners/verifyAccount/route.ts:30 | quote stripping never lengthens the text |
| VerifyAccount.RowEntry | src/app/api/gardners/verifyAccount/route.ts:26-33 | an empty line contributes no entry; a stored code holds no lower-case letter, so lookups ignore the case of the account number |
| VerifyAccount.QuotedRowCells | src/app/api/gardners/verifyAccount/route.ts:27-29 | the code is the text before the first comma; the name keeps its commas |
| VerifyAccount.QuotedRowParts | src/app/api/gardners/verifyAccount/route.ts:30-32 | the code is trimmed and upper-cased; the name loses its quotes and its padding |
| VerifyAccount.QuotedNameWithComma | src/app/api/gardners/verifyAccount/route.ts:27-32 | the row `ab12 ,"Smith, Jones"` stores "Smith, Jones" under "AB12" |
| VerifyAccount.Entries | src/app/api/gardners/verifyAccount/route.ts:25-34 | each data row contributes its own entry, in order |
| VerifyAccount.ParseAccounts | src/app/api/gardners/verifyAccount/route.ts:24-34 | the row-by-row map is the map of all data rows |
| VerifyAccount.CodeKnownIffSomeRow | src/app/api/gardners/verifyAccount/route.ts:25-34 | a code is in the map exactly when some entry has it |
| VerifyAccount.LastRowWins | src/app/api/gardners/verifyAccount/route.ts:32 | the stored name is the one of the last entry with that code |
| VerifyAccount.LaterRowOverwrites | src/app/api/gardners/verifyAccount/route.ts:23-34 | over the CSV rows, a code is known exactly when some row has it, and then carries the name of the last such row |
| VerifyAccount.NamesMatch | src/app/api/gardners/verifyAccount/route.ts:41-45 | names that are equal after trimming and lower-casing always match |
| VerifyAccount.NamesMatchSymmetric | src/app/api/gardners/verifyAccount/route.ts:44 | the name test does not depend on which name is the provided one |
| VerifyAccount.BlankNameMatchesAll | src/app/api/gardners/verifyAccount/route.ts:42-44 | a name of only white space matches every stored name |
| VerifyAccount.Post | src/app/api/gardners/verifyAccount/route.ts:5-59 | the handler's answer is the route's verdict on the body and the CSV |
| VerifyAccount.Verdict | src/app/api/gardners/verifyAccount/route.ts:5-59 | every reply is 200, 400 or 500; the handler throws only on an unparsable or `null` body or a field that is not a string; both fields present with an unreadable CSV give 500 "Could not read accounts data" |
| VerifyAccount.MissingFieldRejected | src/app/api/gardners/verifyAccount/route.ts:8-10 | a falsy account number or name is 400 before the CSV is read |
| VerifyAccount.VerifiedIffNamesMatch | src/app/api/gardners/verifyAccount/route.ts:37-45 | a 200 answer says `verified` exactly when the trimmed, upper-cased code is known with a non-empty name and one lower-cased, trimmed name contains the other |
| VerifyAccount.CredentialsOnlyWhenVerified | src/app/api/gardners/verifyAccount/route.ts:51-58 | a 200 answer has exactly `verified`, `username` and `password`; verified answers carry credentials derived from the account number as sent, the others empty ones |
| VerifyAccount.BlankNameVerifiesKnownAccount | src/app/api/gardners/verifyAccount/route.ts:41-58 | a blank but non-empty name verifies every known account and receives its credentials |
| ListGardlinkReports.JsonFiles | src/app/api/gardners/listGardlinkReports/route.ts:24 | a file is kept exactly when its name ends with ".json" |
| ListGardlinkReports.JsonFilesAppend | src/app/api/gardners/listGardlinkReports/route.ts:23-25 | the filter keeps the directory order |
| ListGardlinkReports.ParsedEntry | src/app/api/gardners/listGardlinkReports/route.ts:28-34 | a parsed configuration supplies id, title and description when truthy; otherwise the file name and the fixed defaults do |
| ListGardlinkReports.FailedEntry | src/app/api/gardners/listGardlinkReports/route.ts:35-41 | an unreadable, unparsable or `null` file is still listed, with the exception's message as description |
| ListGardlinkReports.Entry | src/app/api/gardners/listGardlinkReports/route.ts:25-43 | every `.json` file gives an entry with exactly `id`, `title` and `description`; one that cannot be read or parsed is titled "Error: Could not parse" and the file name |
| ListGardlinkReports.Reports | src/app/api/gardners/listGardlinkReports/route.ts:23-44 | one report per ".json" file, each an object with exactly `id`, `title` and `description` |
| ListGardlinkReports.DefaultIdStripsExtension | src/app/api/gardners/listGardlinkReports/route.ts:31 | "sales.json" gets the id "sales" |
| ListGardlinkReports.DefaultIdRemovesFirstOccurrence | src/app/api/gardners/listGardlinkReports/route.ts:38 | only the first ".json" is removed: "q1.json.json" gets the id "q1.json" |
| ListGardlinkReports.ListingShape | src/app/api/gardners/listGardlinkReports/route.ts:44-52 | a readable directory answers 200 with one report per ".json" file in order, and the message appears exactly when there is none |
| ListGardlinkReports.DirectoryErrors | src/app/api/gardners/listGardlinkReports/route.ts:13-21 | a missing directory is 404, any other read failure 500 |
| ListGardlinkReports.List | src/app/api/gardners/listGardlinkReports/route.ts:6-58 | the handler always answers; the status is 200 exactly when the directory was read, and 404 exactly when it does not exist |
| GetReportFileContent.ValidationOrder | src/app/api/gardners/getReportFileContent/route.ts:10-17 | a missing id is 400 "required", a malformed one is 400 "format" exactly when it has a character outside the class, and neither reads a file |
| GetReportFileContent.FileOutcomes | src/app/api/gardners/getReportFileContent/route.ts:20-41 | for a well-formed id: no file is 404, an unreadable file 500, unparsable content the parse 500, otherwise `{data}` with the parsed content |
| GetReportFileContent.TraversalRefused | src/app/api/gardners/getReportFileContent/route.ts:15-17 | an id with '.', '/' or an upper-case letter is refused |
| GetReportFileContent.BackslashAdmitted | src/app/api/gardners/getReportFileContent/route.ts:15 | the class as written admits a backslash |
| GetReportFileContent.GetContent | src/app/api/gardners/getReportFileContent/route.ts:6-42 | the handler always answers; a 200 needs a present, well-formed id whose file is stored, and every other answer carries an `error` field |
| RunGardlinkReport.TempReports.constructor | src/app/api/gardners/runGardlinkReport/route.ts:122-123 | the temp report directory starts empty |
| RunGardlinkReport.TempReports.Post | src/app/api/gardners/runGardlinkReport/route.ts:47-156 | the handler's answer and effects are the route's outcome, and exactly a successful run adds its file |
| RunGardlinkReport.TempReports.RunConfigured | src/app/api/gardners/runGardlinkReport/route.ts:72-155 | from the report configuration on: answer, effects and stored file as the route's outcome |
| RunGardlinkReport.Run | src/app/api/gardners/runGardlinkReport/route.ts:47-156 | the handler always answers; it asks nothing of the environment exactly when the body is unparsable, `null` or has a falsy `reportId`, and its first request is the password lookup; a stored file comes with a 200 |
| RunGardlinkReport.Execute | src/app/api/gardners/runGardlinkReport/route.ts:72-155 | the earlier effects are kept and the report file `<reportId>.json` is read first; a stored recordset goes under `<uuid>.json` with a 200 answer, and the pool is closed last |
| RunGardlinkReport.FalsyReportIdRefusedFirst | src/app/api/gardners/runGardlinkReport/route.ts:58-60 | a falsy `reportId` is 400 before anything else is asked |
| RunGardlinkReport.ReportPathUnchecked | src/app/api/gardners/runGardlinkReport/route.ts:63-79 | the password is read first, then the file `<reportId>.json` exactly as named, with no check on the id |
| RunGardlinkReport.ReportFileErrors | src/app/api/gardners/runGardlinkReport/route.ts:78-86 | a missing report file is 404, any other read error 500, and neither connects |
| RunGardlinkReport.DatabaseCheckedBeforeQuery | src/app/api/gardners/runGardlinkReport/route.ts:90-97 | a configuration without `database` is reported as such even without `sqlQuery`; a missing query is reported otherwise; neither connects |
| RunGardlinkReport.ConnectsToReportDatabase | src/app/api/gardners/runGardlinkReport/route.ts:99-112 | every connection uses "sa", the retrieved password and the report's database, and it is closed exactly when it was opened |
| RunGardlinkReport.SuccessfulRun | src/app/api/gardners/runGardlinkReport/route.ts:116-136 | the answer is 200 exactly when the recordset is stored; the summary and the stored file describe the same records under the same id |
| RunGardlinkReport.SummaryShape | src/app/api/gardners/runGardlinkReport/route.ts:129-134 | the summary counts every record and shows the first min(5, n) |
| RunGardlinkReport.StoredRecordsetIsServed | src/app/api/gardners/runGardlinkReport/route.ts:121-125 | the stored file is what the file reader serves under the returned id, when the id passes its format check |
| RunGardlinkReport.ToolAcceptsSuccessfulRun | src/app/api/gardners/runGardlinkReport/route.ts:129-136 | the sales agent's tool accepts every successful answer and reports the full count, the summary records and the file id |
| Transcript.UpdateMessage | src/app/hooks/useHandleServerEvent.ts:210-229 | updating a message retexts the items with that id and leaves the others and the length alone |
| Transcript.UpdateStatus | src/app/hooks/useHandleServerEvent.ts:251-257 | marking an item done affects only the items with that id |
| HandleServerEvent.FindIndex | src/app/hooks/useHandleServerEvent.ts:106-110 | `find` returns the first agent with the name, and none exactly when no agent has it |
| HandleServerEvent.FindAgent | src/app/hooks/useHandleServerEvent.ts:68-70 | an agent is found exactly when the set exists and has one of that name |
| HandleServerEvent.ReportFileIdOf | src/app/hooks/useHandleServerEvent.ts:86-90 | a report id is taken exactly when the result is an object with a string `reportFileId` |
| HandleServerEvent.GreetingId | src/app/hooks/useHandleServerEvent.ts:136 | the greeting id is the uuid's first 32 characters |
| HandleServerEvent.CallStep | src/app/hooks/useHandleServerEvent.ts:41-171 | a call never changes the session status, and only appends to the outbound channel: every event sent earlier stays, in order |
| HandleServerEvent.DoneCalls | src/app/hooks/useHandleServerEvent.ts:231-249 | running the calls of a `response.done` one after another leaves the session status as it was |
| HandleServerEvent.EventStep | src/app/hooks/useHandleServerEvent.ts:173-262 | only `session.created` changes the session status, and only to connected; every event other than `response.done` leaves the outbound channel and the active agent as they were |
| HandleServerEvent.Session.constructor | src/app/hooks/useHandleServerEvent.ts:21-37 | a session starts with an empty transcript and outbox, disconnected, with the initial agent |
| HandleServerEvent.Session.AddTranscriptBreadcrumb | src/app/hooks/useHandleServerEvent.ts:73 | a breadcrumb is appended and nothing else changes |
| HandleServerEvent.Session.AddTranscriptMessage | src/app/hooks/useHandleServerEvent.ts:205 | an in-progress message is appended and nothing else changes |
| HandleServerEvent.Session.UpdateTranscriptMessage | src/app/hooks/useHandleServerEvent.ts:217 | only the transcript changes, as the update function says |
| HandleServerEvent.Session.UpdateTranscriptItemStatus | src/app/hooks/useHandleServerEvent.ts:254 | only the transcript changes, as the status function says |
| HandleServerEvent.Session.SendClientEvent | src/app/hooks/useHandleServerEvent.ts:92-100 | the event is appended to the outbox and nothing else changes |
| HandleServerEvent.Session.RunTool | src/app/hooks/useHandleServerEvent.ts:76-100 | the tool branch on the session's fields agrees with the tool-branch function |
| HandleServerEvent.Session.RunTransfer | src/app/hooks/useHandleServerEvent.ts:101-152 | the transfer branch on the session's fields agrees with the transfer-branch function |
| HandleServerEvent.Session.RunFallback | src/app/hooks/useHandleServerEvent.ts:153-170 | the fallback branch on the session's fields agrees with the fallback function |
| HandleServerEvent.Session.HandleFunctionCall | src/app/hooks/useHandleServerEvent.ts:41-171 | handling a call on the session's fields agrees with `CallStep` |
| HandleServerEvent.Session.HandleResponseDone | src/app/hooks/useHandleServerEvent.ts:231-249 | the loop over `response.output` ends in the state DoneCalls gives for all the items, in the closure captured on arrival |
| HandleServerEvent.Session.HandleServerEvent | src/app/hooks/useHandleServerEvent.ts:173-262 | handling an event on the session's fields agrees with `EventStep` |
| HandleServerEventProps.CallSends | src/app/hooks/useHandleServerEvent.ts:41-171 | a call appends its events to the outbox and sends nothing else |
| HandleServerEventProps.CallEventsShape | src/app/hooks/useHandleServerEvent.ts:41-171 | a call sends nothing exactly when it aborts, and otherwise one output for its call id first and a response request last |
| HandleServerEventProps.CallIsAnswered | src/app/hooks/useHandleServerEvent.ts:41-171 | earlier events are kept; an aborting call leaves the outbox alone, any other answers its call id once and asks for a response |
| HandleServerEventProps.EnvelopeIsTransparent | src/app/hooks/useHandleServerEvent.ts:54-60 | arguments wrapped as `{name, arguments}` are handled exactly as the inner arguments |
| HandleServerEventProps.UnparsableChangesNothing | src/app/hooks/useHandleServerEvent.ts:48-66 | a call whose arguments fail to parse, or parse to `null`, leaves the whole state unchanged: no breadcrumb, no event |
| HandleServerEventProps.CallOnlyAppendsToTranscript | src/app/hooks/useHandleServerEvent.ts:72-170 | a call keeps every transcript item already shown, in place and unchanged, and only appends |
| HandleServerEventProps.OwnToolTakesPrecedence | src/app/hooks/useHandleServerEvent.ts:76-100 | an own tool that returns gets its result sent, even when named `transferAgents`; the agent stays; a string `reportFileId` opens the viewer |
| HandleServerEventProps.TransferOutcome | src/app/hooks/useHandleServerEvent.ts:101-152 | a built-in transfer switches exactly when the set has the named agent, reports the name and the outcome, then sends a hidden "hi" and a response request |
| HandleServerEventProps.TransferBranchFacts | src/app/hooks/useHandleServerEvent.ts:103-152 | the transfer branch's transcript, agent, flag and outbox after the first breadcrumb |
| HandleServerEventProps.FallbackOutcome | src/app/hooks/useHandleServerEvent.ts:153-170 | a call that is neither an own tool nor a transfer is answered `{result: true}` and changes no agent |
| HandleServerEventProps.AgentChangesOnlyByTransfer | src/app/hooks/useHandleServerEvent.ts:113-118 | the active agent changes only through a successful transfer to a member of the set, which also raises the transfer flag |
| HandleServerEventProps.ResponseAnswersEachCall | src/app/hooks/useHandleServerEvent.ts:231-249 | a `response.done` answers its calls in emitted order, each once, skips the aborting ones, and keeps earlier events |
| HandleServerEventProps.ResponseKeepsAgentKnown | src/app/hooks/useHandleServerEvent.ts:233-246 | the active agent stays a member of the set through the calls of a response |
| HandleServerEventProps.SingleItemResponse | src/app/hooks/useHandleServerEvent.ts:231-249 | a `response.done` with one output item does exactly what that item's call does, in the closure of the arriving event |
| HandleServerEventProps.EventKeepsInvariants | src/app/hooks/useHandleServerEvent.ts:173-262 | no event makes the active agent unknown, and outbound events are only appended |
| HandleServerEventProps.OnlyResponseDoneActs | src/app/hooks/useHandleServerEvent.ts:173-262 | only `response.done` sends or changes the agent, flag or viewer; only `session.created` changes the status; unknown events change nothing |
| HandleServerEventProps.DuplicateItemIgnored | src/app/hooks/useHandleServerEvent.ts:197-199 | an item id already in the transcript changes nothing |
| HandleServerEventProps.ItemCreatedIdempotent | src/app/hooks/useHandleServerEvent.ts:189-208 | delivering the same item twice has the effect of delivering it once |
| HandleServerEventProps.NewItemAppended | src/app/hooks/useHandleServerEvent.ts:201-205 | a new item is appended visible and in progress with its text, else its transcript, else "[Transcribing...]" for a user |
| HandleServerEventProps.TranscriptionUpdates | src/app/hooks/useHandleServerEvent.ts:210-229 | a completed transcription replaces the text, "[inaudible]" for empty or "\n"; a delta appends; other items are untouched |
| GardnersScenario.NoAgentNamedSalesAgent | src/app/agentConfigs/gardnersAgent/index.ts:5-8 | the Gardners set has an agent "gardnersSalesAgent" and none named "salesAgent" |
| GardnersScenario.FrontDeskTools | src/app/agentConfigs/gardnersAgent/authentication.ts:146-152 | the front desk implements neither a transfer nor a product lookup itself |
| GardnersScenario.PromptedArgs | src/app/agentConfigs/gardnersAgent/authentication.ts:117 | the prompted call names "salesAgent", wrapped or not |
| GardnersScenario.PromptedTransferFails | src/app/agentConfigs/gardnersAgent/authentication.ts:112-117 | the transfer the prompt asks for reports `did_transfer: false` and the front desk stays active |
| GardnersScenario.TransferByConfiguredNameSucceeds | src/app/hooks/useHandleServerEvent.ts:106-147 | a transfer that names "gardnersSalesAgent" succeeds |
| GardnersScenario.TwoCalls | src/app/hooks/useHandleServerEvent.ts:233-246 | two calls of one response run in order, both in the closure captured at its start |
| GardnersScenario.LaterCallInSameResponseUsesFrontDesk | src/app/hooks/useHandleServerEvent.ts:233-246 | after a transfer in one response, a later `retrieveBookInfo` call in that response still goes to the front desk and gets `{result: true}` without a lookup |

## Left out

- Network, file system, SQLite, SQL Server and MongoDB are not modelled. Their results are parameters, so any answer they could give is covered.
- Headers, URL encoding and the Basic-authentication base64 encoding are not modelled; the requests carry the decoded values.
- React plumbing is not modelled: `useRef`, state setters, re-rendering, and state that lags behind its setter. The closure captured at event arrival stands for what the hook sees.
- `handleFunctionCall` is `async` and is not awaited in the `forEach`. The model runs the calls of one `response.done` to completion one after another. Interleavings between an awaiting tool and later calls are not modelled.
- `uuidv4()` and `new Date().toLocaleString()` are arguments; their formats are not modelled.
- `JSON.parse` and `JSON.stringify` are parameters, not implementations.
- The general `catch` of the report listing (listGardlinkReports/route.ts:54-56) is not modelled: once the directory is read, nothing else in that `try` throws in the model.
- `reportParameters` (runGardlinkReport/route.ts:51-56) is never used, and the model drops it.
- The mssql `options`, `requestTimeout` and `maxDuration` settings are not modelled.
- The agents' prompts, descriptions and tool schemas are text for the realtime model and are not modelled, apart from the transfer target the front desk is told to use.
- `injectTransferTools` is not part of this model. The dispatcher handles `transferAgents` itself, and the model gives the agents only those fields.
- Logging (`console.*`) and `logServerEvent` are left out.
- JavaScript numbers are modelled as integers: floating point, `NaN` as a value and `Infinity` are not modelled.
- `trim` and `\s` follow the ECMAScript white-space set closely; `toLowerCase`/`toUpperCase` are modelled for ASCII letters only.
- JsValues.Get: string and array built-in properties (such as `length`) are not modelled, because the core reads no such property through it.
- HandleServerEvent.OwnTool: the source looks the tool up with a plain property read (useHandleServerEvent.ts:76-77), which also finds names every object inherits, such as `toString`, `valueOf`, `hasOwnProperty`, `constructor` or `__proto__`. The model finds only the tools an agent declares, so a call with such a name goes to the transfer or fallback branch. No configured agent declares a tool of that name, and none of the agents' tool lists offers one to the realtime model.
- FactTracker.FactLog.Load: the start-up load runs as a call, not concurrently with the first `addFact`.
- The facts, product lookup and Gardlink account routes, the report viewer, the echo server and the Mongo client are not part of this model: they only pass data between the app and a service.
- The comedy, education, credits and interviewer agents, the spoof caller's department, director and switchboard prompts, the authenticator and Gardlink reporter agents are configuration data and are not part of this model.

## Findings

| source | as written | input that shows it | evidently intended | confidence | as-written member | corrected member |
|---|---|---|---|---|---|---|
| test-ean.ts:8-9 | the TypeScript script expects 9780571363611 to be valid and 9780571366361 to be invalid | 9780571363611: its computed check digit is 2, not 1, so the fourth assertion fails, and 9780571366361 is valid | the expectations of test-ean.js:17-18 (false, then true), which every sample meets | not executed | TestEan.TsScriptStopsAtFourthSample | TestEan.TestEanScript |

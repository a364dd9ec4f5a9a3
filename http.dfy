/**
 * What an API route handler answers: a JSON reply with a status, or an
 * exception it does not catch (which the framework turns into its own 500).
 */
module Http {
  import opened Wrappers
  import opened JsValues

  datatype RouteResponse = Reply(status: int, body: Value) | Crash

  /** `NextResponse.json({ error }, { status })` */
  function ErrorReply(status: int, error: string): RouteResponse {
    Reply(status, Obj(map["error" := Str(error)]))
  }

  /** `NextResponse.json({ error, details }, { status })` */
  function DetailedError(status: int, error: string, details: Value): RouteResponse {
    Reply(status, Obj(map["error" := Str(error), "details" := details]))
  }

  /** `URLSearchParams.get`: the value of the first pair with this key, or `null`. */
  function QueryGet(query: seq<(string, string)>, key: string): (r: Option<string>)
    ensures r.None? <==> forall i :: 0 <= i < |query| ==> query[i].0 != key
    ensures r.Some? ==> exists i :: 0 <= i < |query| && query[i] == (key, r.value) && forall j :: 0 <= j < i ==> query[j].0 != key
  {
    if query == [] then None
    else if query[0].0 == key then Some(query[0].1)
    else
      var r := QueryGet(query[1..], key);
      assert r.Some? ==> exists i :: 0 <= i < |query[1..]| && query[1..][i] == (key, r.value) && forall j :: 0 <= j < i ==> query[1..][j].0 != key;
      r
  }

  /** A query parameter is truthy when it is present and not the empty string. */
  predicate Given(p: Option<string>) {
    p.Some? && p.value != ""
  }

  lemma {:induction false} QueryGetAppend(a: seq<(string, string)>, b: seq<(string, string)>, key: string)
    ensures QueryGet(a + b, key) == if QueryGet(a, key).Some? then QueryGet(a, key) else QueryGet(b, key)
    decreases |a|
  {
    if a == [] {
      assert a + b == b;
    } else {
      assert (a + b)[0] == a[0];
      assert (a + b)[1..] == a[1..] + b;
      QueryGetAppend(a[1..], b, key);
    }
  }

  lemma QueryGetPair(k: string, v: string, key: string)
    ensures QueryGet([(k, v)], key) == if k == key then Some(v) else None
  {
    if k != key {
      assert [(k, v)][1..] == [];
    }
  }
}

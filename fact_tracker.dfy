/**
 * The witness interviewer's fact log: the module-level `facts` list, loaded
 * once from the facts API and appended to by the `recordFact` tool
 * (`addFact`), which also posts each new fact to the API and ignores the
 * outcome of that post.
 */
module FactTracker {
  import opened JsValues
  import opened Fetch

  class FactLog {
    /** The module-level `facts` array. */
    var facts: seq<Value>
    /** The bodies of the POST requests sent to the facts API, in order. */
    var posted: seq<Value>

    constructor ()
      ensures facts == [] && posted == []
    {
      facts := [];
      posted := [];
    }

    /** The start-up load: the API's `facts` array replaces the list when there is one; any failure keeps it. */
    method Load(outcome: FetchOutcome)
      modifies this
      ensures posted == old(posted)
      ensures outcome.Responded? && outcome.response.body.Parsed? && !Nullish(outcome.response.body.value)
              && Get(outcome.response.body.value, "facts").Arr?
              ==> facts == Get(outcome.response.body.value, "facts").items
      ensures !(outcome.Responded? && outcome.response.body.Parsed? && !Nullish(outcome.response.body.value)
                && Get(outcome.response.body.value, "facts").Arr?)
              ==> facts == old(facts)
    {
      if outcome.Responded? && outcome.response.body.Parsed? && !Nullish(outcome.response.body.value) {
        var data := Get(outcome.response.body.value, "facts");
        if data.Arr? {
          facts := data.items;
        }
      }
    }

    /**
     * `addFact({ fact })`: a truthy fact is appended and posted; the post's
     * outcome, success or failure, changes nothing. The result is `{facts}`
     * with the updated list. Destructuring `null` arguments rejects.
     * `postOutcome` is what the POST came to; the handler catches and
     * ignores it, so no clause below depends on it.
     */
    method AddFact(args: Value, postOutcome: FetchOutcome) returns (r: ToolOutcome)
      modifies this
      ensures Nullish(args) ==> r.Threw? && facts == old(facts) && posted == old(posted)
      ensures !Nullish(args) && !Truthy(Get(args, "fact")) ==> facts == old(facts) && posted == old(posted)
      ensures !Nullish(args) && Truthy(Get(args, "fact")) ==>
        && facts == old(facts) + [Get(args, "fact")]
        && posted == old(posted) + [Obj(map["fact" := Get(args, "fact")])]
      ensures !Nullish(args) ==> r == Returned(Obj(map["facts" := Arr(facts)]))
    {
      if Nullish(args) {
        return Threw(TypeErrorMessage);
      }
      var fact := Get(args, "fact");
      if Truthy(fact) {
        facts := facts + [fact];
        posted := posted + [Obj(map["fact" := fact])];
      }
      return Returned(Obj(map["facts" := Arr(facts)]));
    }
  }
}

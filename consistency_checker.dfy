/**
 * The witness interviewer's consistency checker: a crude contradiction test
 * between two normalised statements ("not X" or "no X" against "X"), and the
 * `checkContradictions` tool that filters the known facts with it.
 */
module ConsistencyChecker {
  import opened JsStrings
  import opened JsValues
  import opened Fetch

  /** The characters `/[^a-z0-9\s]/g` keeps. */
  predicate Kept(c: char) {
    ('a' <= c <= 'z') || ('0' <= c <= '9') || IsJsSpace(c)
  }

  /** `s.replace(/[^a-z0-9\s]/g, '')` */
  function KeepAllowed(s: string): (r: string)
    ensures |r| <= |s|
    ensures forall i :: 0 <= i < |r| ==> Kept(r[i])
  {
    if s == [] then []
    else (if Kept(s[0]) then [s[0]] else []) + KeepAllowed(s[1..])
  }

  /** `norm`: lower-cased, stripped to letters, digits and white space, trimmed. */
  function Normalize(s: string): (r: string)
    ensures IsNormal(r)
  {
    var k := KeepAllowed(Lower(s));
    TrimStartSuffix(k);
    TrimEndPrefix(TrimStart(k));
    Trim(k)
  }

  /** A statement already in normal form: only kept characters, no white space at either end. */
  predicate IsNormal(s: string) {
    && (forall i :: 0 <= i < |s| ==> Kept(s[i]))
    && (|s| > 0 ==> !IsJsSpace(s[0]) && !IsJsSpace(s[|s| - 1]))
  }

  /**
   * `contradicts(existing, incoming)`. A contradiction needs a "not " or
   * "no " prefix on one side, so the two normal forms differ in length.
   */
  predicate Contradicts(existing: string, incoming: string)
    ensures Contradicts(existing, incoming) ==> |Normalize(existing)| != |Normalize(incoming)|
  {
    var a := Normalize(existing);
    var b := Normalize(incoming);
    if a == b then false
    else if a == "not " + b || b == "not " + a then true
    else if StartsWith(a, "no ") && a[3..] == b then true
    else StartsWith(b, "no ") && b[3..] == a
  }

  lemma {:induction false} KeepAllowedOfKept(s: string)
    requires forall i :: 0 <= i < |s| ==> Kept(s[i])
    ensures KeepAllowed(s) == s
  {
    if s != [] {
      KeepAllowedOfKept(s[1..]);
    }
  }

  /** The filter works character by character: it distributes over concatenation. */
  lemma {:induction false} KeepAllowedAppend(a: string, b: string)
    ensures KeepAllowed(a + b) == KeepAllowed(a) + KeepAllowed(b)
  {
    if a == [] {
      assert a + b == b;
    } else {
      assert (a + b)[1..] == a[1..] + b;
      KeepAllowedAppend(a[1..], b);
    }
  }

  /** A single character is kept exactly when the character class allows it. */
  lemma KeepAllowedChar(c: char)
    ensures KeepAllowed([c]) == if Kept(c) then [c] else []
  {
    assert [c][1..] == [];
  }

  /** Text made only of removed characters disappears. */
  lemma {:induction false} KeepAllowedOfRemoved(s: string)
    requires forall i :: 0 <= i < |s| ==> !Kept(s[i])
    ensures KeepAllowed(s) == []
  {
    if s != [] {
      KeepAllowedOfRemoved(s[1..]);
    }
  }

  /**
   * A statement that lower-cases to a normal one keeps that normal form
   * whatever punctuation follows it: case and punctuation are ignored.
   */
  lemma NormalizeIgnoresCaseAndPunctuation(s: string, y: string, q: string)
    requires IsNormal(y) && Lower(s) == y
    requires forall i :: 0 <= i < |q| ==> !Kept(ToLowerAscii(q[i]))
    ensures Normalize(s + q) == y
  {
    var lq := Lower(q);
    LowerAppend(s, q);
    KeepAllowedAppend(y, lq);
    KeepAllowedOfKept(y);
    KeepAllowedOfRemoved(lq);
    assert KeepAllowed(Lower(s + q)) == y + [];
    assert y + [] == y;
    TrimUnchanged(y);
  }

  lemma LowerAppend(a: string, b: string)
    ensures Lower(a + b) == Lower(a) + Lower(b)
  {
    var l, r := Lower(a + b), Lower(a) + Lower(b);
    assert |l| == |r|;
    forall i | 0 <= i < |l|
      ensures l[i] == r[i]
    {
      if i < |a| {
        assert (a + b)[i] == a[i];
      } else {
        assert (a + b)[i] == b[i - |a|];
      }
    }
  }

  /** A word in any case before a normal statement, followed by punctuation, normalises to the lower-cased word and the statement. */
  lemma NormalizePrefixed(w: string, x: string, q: string)
    requires IsNormal(Lower(w) + x) && IsNormal(x)
    requires forall i :: 0 <= i < |q| ==> !Kept(ToLowerAscii(q[i]))
    ensures Normalize(w + x + q) == Lower(w) + x
  {
    LowerAppend(w, x);
    LowerOfKept(x);
    NormalizeIgnoresCaseAndPunctuation(w + x, Lower(w) + x, q);
  }

  lemma LowerOfKept(s: string)
    requires forall i :: 0 <= i < |s| ==> Kept(s[i])
    ensures Lower(s) == s
  {
    assert forall i :: 0 <= i < |s| ==> Lower(s)[i] == s[i];
  }

  /**
   * A capitalised, punctuated negation contradicts the plain statement:
   * "Not X!" or "No X." against a non-empty normal X, in either order.
   */
  lemma CapitalisedNegationContradicts(x: string, q: string)
    requires IsNormal(x) && x != ""
    requires forall i :: 0 <= i < |q| ==> !Kept(ToLowerAscii(q[i]))
    ensures Contradicts("Not " + x + q, x) && Contradicts(x, "Not " + x + q)
    ensures Contradicts("No " + x + q, x) && Contradicts(x, "No " + x + q)
  {
    NormalizeNormal(x);
    var y := "not " + x;
    assert IsNormal(y) by {
      assert forall i :: 4 <= i < |y| ==> y[i] == x[i - 4];
    }
    assert Lower("Not ") == "not ";
    NormalizePrefixed("Not ", x, q);
    var z := "no " + x;
    assert IsNormal(z) by {
      assert forall i :: 3 <= i < |z| ==> z[i] == x[i - 3];
    }
    assert Lower("No ") == "no ";
    NormalizePrefixed("No ", x, q);
    assert StartsWith(z, "no ") && z[3..] == x;
  }

  /** A concrete witness statement: "Not red!" contradicts "red". */
  lemma NotRedContradictsRed()
    ensures Contradicts("Not red!", "red")
  {
    assert IsNormal("red");
    CapitalisedNegationContradicts("red", "!");
    assert "Not " + "red" + "!" == "Not red!";
  }

  /** Normalising is the identity on normal statements. */
  lemma NormalizeNormal(s: string)
    requires IsNormal(s)
    ensures Normalize(s) == s
  {
    assert Lower(s) == s;
    KeepAllowedOfKept(s);
    TrimUnchanged(s);
  }

  lemma {:induction false} TrimStartSuffix(s: string)
    ensures exists n :: 0 <= n <= |s| && TrimStart(s) == s[n..]
    ensures |TrimStart(s)| > 0 ==> !IsJsSpace(TrimStart(s)[0])
  {
    if |s| > 0 && IsJsSpace(s[0]) {
      TrimStartSuffix(s[1..]);
      var n :| 0 <= n <= |s[1..]| && TrimStart(s[1..]) == s[1..][n..];
      assert s[1..][n..] == s[n + 1..];
    } else {
      assert s == s[0..];
    }
  }

  lemma {:induction false} TrimEndPrefix(s: string)
    ensures exists n :: 0 <= n <= |s| && TrimEnd(s) == s[..n]
    ensures |TrimEnd(s)| > 0 ==> !IsJsSpace(TrimEnd(s)[|TrimEnd(s)| - 1])
  {
    if |s| > 0 && IsJsSpace(s[|s| - 1]) {
      TrimEndPrefix(s[..|s| - 1]);
      var n :| 0 <= n <= |s[..|s| - 1]| && TrimEnd(s[..|s| - 1]) == s[..|s| - 1][..n];
      assert s[..|s| - 1][..n] == s[..n];
    } else {
      assert s == s[..|s|];
    }
  }

  /** Statements with the same normal form never contradict; in particular no statement contradicts itself. */
  lemma SameNormalFormNeverContradicts(a: string, b: string)
    requires Normalize(a) == Normalize(b)
    ensures !Contradicts(a, b)
    ensures !Contradicts(b, a)
  {
  }

  lemma ContradictsSymmetric(a: string, b: string)
    ensures Contradicts(a, b) <==> Contradicts(b, a)
  {
  }

  /** "not X" contradicts a non-empty normal X, in either order. */
  lemma NotContradicts(x: string)
    requires IsNormal(x) && x != ""
    ensures Contradicts("not " + x, x) && Contradicts(x, "not " + x)
  {
    NormalizeNormal(x);
    assert IsNormal("not " + x) by {
      var s := "not " + x;
      assert forall i :: 4 <= i < |s| ==> s[i] == x[i - 4];
    }
    NormalizeNormal("not " + x);
  }

  /** "no X" contradicts a non-empty normal X, in either order. */
  lemma NoContradicts(x: string)
    requires IsNormal(x) && x != ""
    ensures Contradicts("no " + x, x) && Contradicts(x, "no " + x)
  {
    NormalizeNormal(x);
    var s := "no " + x;
    assert IsNormal(s) by {
      assert forall i :: 3 <= i < |s| ==> s[i] == x[i - 3];
    }
    NormalizeNormal(s);
    assert StartsWith(s, "no ") && s[3..] == x;
  }

  /** A double negation is no contradiction of the plain statement: only one level of "not" counts. */
  lemma DoubleNegationIsNotContradiction(x: string)
    requires IsNormal(x) && x != ""
    ensures !Contradicts("not not " + x, x)
  {
    NormalizeNormal(x);
    var a := "not not " + x;
    assert IsNormal(a) by {
      assert forall i :: 8 <= i < |a| ==> a[i] == x[i - 8];
    }
    NormalizeNormal(a);
    assert a[2] == 't';
  }

  lemma NotNotXIsNotAContradictionOfX()
    ensures !Contradicts("not not x", "x")
  {
    assert IsNormal("x");
    DoubleNegationIsNotContradiction("x");
    assert "not not " + "x" == "not not x";
  }

  /** `allFacts.filter(f => contradicts(f, fact))` */
  function Filter(facts: seq<string>, fact: string): (r: seq<string>)
    ensures |r| <= |facts|
    ensures forall i :: 0 <= i < |r| ==> r[i] in facts && Contradicts(r[i], fact)
  {
    if facts == [] then []
    else Filter(facts[..|facts| - 1], fact) + (if Contradicts(facts[|facts| - 1], fact) then [facts[|facts| - 1]] else [])
  }

  /** The filter keeps exactly the contradicting facts. */
  lemma {:induction false} FilterMembers(facts: seq<string>, fact: string, f: string)
    ensures f in Filter(facts, fact) <==> f in facts && Contradicts(f, fact)
  {
    if facts != [] {
      var init := facts[..|facts| - 1];
      FilterMembers(init, fact, f);
      assert facts == init + [facts[|facts| - 1]];
    }
  }

  /** The filter keeps the order of the facts: filtering a concatenation concatenates the filtered parts. */
  lemma {:induction false} FilterAppend(a: seq<string>, b: seq<string>, fact: string)
    ensures Filter(a + b, fact) == Filter(a, fact) + Filter(b, fact)
    decreases |b|
  {
    if b == [] {
      assert a + b == a;
    } else {
      var bi := b[..|b| - 1];
      assert (a + b)[..|a + b| - 1] == a + bi;
      FilterAppend(a, bi, fact);
    }
  }

  /** True when the facts API answered with a parsed, non-null body whose `facts` is an array. */
  predicate ServesFacts(outcome: FetchOutcome) {
    && outcome.Responded? && outcome.response.body.Parsed? && !Nullish(outcome.response.body.value)
    && Get(outcome.response.body.value, "facts").Arr?
  }

  /**
   * The facts list `fetchFacts` yields: the API's `facts` array when there is
   * one; on a rejected fetch, an unparsable or null body, or a `facts` that
   * is not an array, the local list.
   */
  function FetchFacts(outcome: FetchOutcome, localFacts: seq<Value>): (r: seq<Value>)
    ensures ServesFacts(outcome) ==> Arr(r) == Get(outcome.response.body.value, "facts")
    ensures !ServesFacts(outcome) ==> r == localFacts
    ensures r != localFacts ==> outcome.Responded? && outcome.response.body.Parsed?
                                && Get(outcome.response.body.value, "facts") == Arr(r)
  {
    if outcome.Rejected? || outcome.response.body.SyntaxError? || Nullish(outcome.response.body.value) then localFacts
    else
      var data := Get(outcome.response.body.value, "facts");
      if data.Arr? then data.items else localFacts
  }

  predicate AllStrings(vs: seq<Value>) {
    forall i :: 0 <= i < |vs| ==> vs[i].Str?
  }

  function Strings(vs: seq<Value>): (r: seq<string>)
    requires AllStrings(vs)
    ensures |r| == |vs| && forall i :: 0 <= i < |vs| ==> vs[i] == Str(r[i])
  {
    if vs == [] then [] else [vs[0].s] + Strings(vs[1..])
  }

  function Strs(ss: seq<string>): (r: seq<Value>)
    ensures |r| == |ss| && forall i :: 0 <= i < |ss| ==> r[i] == Str(ss[i])
  {
    if ss == [] then [] else [Str(ss[0])] + Strs(ss[1..])
  }

  /**
   * `checkContradictions({ fact })`: `{contradictions}` over the fetched
   * facts. Normalising a value that is not a string throws, which only
   * happens once there is a fact to compare.
   */
  function CheckContradictions(args: Value, outcome: FetchOutcome, localFacts: seq<Value>): (r: ToolOutcome)
    ensures Nullish(args) ==> r.Threw?
    ensures FetchFacts(outcome, localFacts) == [] && !Nullish(args) ==> r == Returned(Obj(map["contradictions" := Arr([])]))
    ensures r.Returned? ==> r.value.Obj? && r.value.fields.Keys == {"contradictions"} && r.value.fields["contradictions"].Arr?
    ensures r.Returned? ==> forall i :: 0 <= i < |r.value.fields["contradictions"].items| ==>
              r.value.fields["contradictions"].items[i] in FetchFacts(outcome, localFacts)
  {
    if Nullish(args) then Threw(TypeErrorMessage)
    else
      var fact := Get(args, "fact");
      var allFacts := FetchFacts(outcome, localFacts);
      if allFacts == [] then Returned(Obj(map["contradictions" := Arr([])]))
      else if !fact.Str? || !AllStrings(allFacts) then Threw(TypeErrorMessage)
      else Returned(Obj(map["contradictions" := Arr(Strs(Filter(Strings(allFacts), fact.s)))]))
  }

  /** The tool answers, for string facts, exactly the fetched facts that contradict the new one. */
  lemma CheckReportsContradictingFacts(args: Value, outcome: FetchOutcome, localFacts: seq<Value>, f: string)
    requires !Nullish(args) && Get(args, "fact").Str?
    requires AllStrings(FetchFacts(outcome, localFacts))
    ensures var r := CheckContradictions(args, outcome, localFacts);
      && r.Returned? && r.value.Obj? && "contradictions" in r.value.fields && r.value.fields["contradictions"].Arr?
      && (Str(f) in r.value.fields["contradictions"].items
          <==> Str(f) in FetchFacts(outcome, localFacts) && Contradicts(f, Get(args, "fact").s))
  {
    var allFacts := FetchFacts(outcome, localFacts);
    if allFacts != [] {
      var ss := Strings(allFacts);
      var kept := Filter(ss, Get(args, "fact").s);
      FilterMembers(ss, Get(args, "fact").s, f);
      assert Str(f) in Strs(kept) <==> f in kept;
      assert Str(f) in allFacts <==> f in ss;
    }
  }
}

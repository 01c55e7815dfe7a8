/** src/Query/Transformer/NamedArrayParameter.php: expands every array-valued
    named parameter into one placeholder per element and rewrites the query
    to match. */
module Transformer {
  import opened Results
  import opened PhpArray
  import opened PhpString
  import opened Values
  import opened Exceptions
  import opened Query

  /** `is_numeric($paramKey)`: integer keys always, string keys by PHP's rules. */
  predicate IsNumericKey(k: Key) {
    k.IntKey? || IsNumericString(k.s)
  }

  /** The token the query uses for a parameter: the key itself when it already
      starts with a colon, otherwise the key behind a colon. Reading the first
      character of an empty key yields the empty string, which is no colon. */
  function ParamNameToReplace(paramKey: string): (token: string)
    ensures |token| > 0 && token[0] == ':'
    ensures |paramKey| > 0 && paramKey[0] == ':' ==> token == paramKey
    ensures !(|paramKey| > 0 && paramKey[0] == ':') ==> token == ":" + paramKey
  {
    if |paramKey| > 0 && paramKey[0] == ':' then paramKey else ":" + paramKey
  }

  /** The keys of an array as the strings `array_keys` gives for them. */
  function KeyNames(keys: seq<Key>): seq<string> {
    seq(|keys|, i requires 0 <= i < |keys| => if keys[i].StrKey? then keys[i].s else IntToString(keys[i].i))
  }

  /** The names generated for the first n elements of an array parameter. */
  function PlaceholderNames(paramName: string, n: nat): seq<string> {
    seq(n, i requires 0 <= i < n => PlaceholderName(paramName, i))
  }

  /** An entry that makes the transformation throw. */
  predicate IsUnnamedArray(e: Entry<Value>) {
    IsNumericKey(e.key) && e.value.List?
  }

  /** What one entry of the snapshot does to the query and the parameters. */
  function Step(query: string, params: Params, e: Entry<Value>): Result<(string, Params), DbError> {
    if IsNumericKey(e.key) then
      if e.value.List? then Failure(UnnamedArrayParameter(e.key, e.value)) else Success((query, params))
    else if e.value.List? then
      var placeholders := PlaceholderEntries(e.key.s, e.value.elements);
      var paramNames := KeyNames(Keys(placeholders));
      Success((StrReplace(ParamNameToReplace(e.key.s), Implode(", ", paramNames), query),
               Unset(Union(params, placeholders), e.key)))
    else
      Success((query, params))
  }

  /** The by-reference query and parameters after the call, and the exception
      it threw, if any. */
  datatype Outcome = Outcome(query: string, params: Params, error: Option<DbError>)

  /** The loop over the remaining snapshot entries; an exception stops it with
      the state reached so far. */
  function Run(query: string, params: Params, pending: Params): Outcome
    decreases |pending|
  {
    if pending == [] then Outcome(query, params, None)
    else
      match Step(query, params, pending[0])
      case Failure(e) => Outcome(query, params, Some(e))
      case Success((q, p)) => Run(q, p, pending[1..])
  }

  /** `execute(&$query, &$params)`: the loop walks a copy of the parameters. */
  function Transform(query: string, params: Params): Outcome {
    Run(query, params, params)
  }

  method Execute(query: string, params: Params) returns (q: string, p: Params, error: Option<DbError>)
    ensures Outcome(q, p, error) == Transform(query, params)
  {
    q, p, error := query, params, None;
    var snapshot := params;
    var n := 0;
    while n < |snapshot|
      invariant 0 <= n <= |snapshot|
      invariant Run(q, p, snapshot[n..]) == Transform(query, params)
      invariant error == None
    {
      var paramKey, paramValue := snapshot[n].key, snapshot[n].value;
      assert snapshot[n..][0] == snapshot[n] && snapshot[n..][1..] == snapshot[n + 1..];
      if IsNumericKey(paramKey) {
        if paramValue.List? {
          error := Some(UnnamedArrayParameter(paramKey, paramValue));
          return;
        }
      } else if paramValue.List? {
        var placeholders := Placeholders(paramKey.s, paramValue.elements);
        p := Union(p, placeholders);
        p := Unset(p, paramKey);
        var paramNames := KeyNames(Keys(placeholders));
        q := StrReplace(ParamNameToReplace(paramKey.s), Implode(", ", paramNames), q);
      }
      n := n + 1;
    }
  }

  /** The position of the first entry that makes the transformation throw. */
  function FirstUnnamedArray(ps: Params): (r: Option<nat>)
    ensures r.None? <==> forall i :: 0 <= i < |ps| ==> !IsUnnamedArray(ps[i])
    ensures r.Some? ==> r.value < |ps| && IsUnnamedArray(ps[r.value]) &&
                        forall i :: 0 <= i < r.value ==> !IsUnnamedArray(ps[i])
  {
    if ps == [] then None
    else if IsUnnamedArray(ps[0]) then Some(0)
    else
      match FirstUnnamedArray(ps[1..])
      case None => None
      case Some(j) => Some(j + 1)
  }

  /** The transformation throws exactly when some numeric key holds an array,
      whatever the array holds (an empty one included). The exception names the
      first such entry, and the query and parameters keep every expansion made
      before it. */
  lemma {:induction false} RunError(query: string, params: Params, pending: Params)
    ensures match FirstUnnamedArray(pending)
      case None => Run(query, params, pending).error == None
      case Some(j) =>
        var partial := Run(query, params, pending[..j]);
        Run(query, params, pending) ==
          Outcome(partial.query, partial.params, Some(UnnamedArrayParameter(pending[j].key, pending[j].value)))
    decreases |pending|
  {
    if pending != [] && !IsUnnamedArray(pending[0]) {
      var next := Step(query, params, pending[0]);
      var (q, p) := next.value;
      RunError(q, p, pending[1..]);
      match FirstUnnamedArray(pending[1..])
      case None =>
      case Some(j) =>
        assert pending[..j + 1][1..] == pending[1..][..j];
        assert pending[..j + 1][0] == pending[0];
    }
  }

  lemma TransformError(query: string, params: Params)
    ensures Transform(query, params).error.Some? <==>
            exists i :: 0 <= i < |params| && IsNumericKey(params[i].key) && params[i].value.List?
  {
    RunError(query, params, params);
  }

  /** Entries whose value is not an array, under numeric or named keys, change
      neither the query nor the parameters. */
  lemma ScalarStep(query: string, params: Params, e: Entry<Value>)
    requires !e.value.List?
    ensures Step(query, params, e) == Success((query, params))
  {
  }

  /** Without array values, query and parameters come out as they went in. */
  lemma {:induction false} RunScalars(query: string, params: Params, pending: Params)
    requires forall i :: 0 <= i < |pending| ==> !pending[i].value.List?
    ensures Run(query, params, pending) == Outcome(query, params, None)
    decreases |pending|
  {
    if pending != [] {
      RunScalars(query, params, pending[1..]);
    }
  }

  lemma TransformScalars(query: string, params: Params)
    requires forall i :: 0 <= i < |params| ==> !params[i].value.List?
    ensures Transform(query, params) == Outcome(query, params, None)
  {
    RunScalars(query, params, params);
  }

  lemma PlaceholderKeyNames(paramName: string, values: seq<Value>)
    ensures KeyNames(Keys(PlaceholderEntries(paramName, values))) == PlaceholderNames(paramName, |values|)
  {
  }

  /** The effect of one array-valued named parameter: its key is gone; each
      generated name reads as its element, unless the parameters already held
      that name, whose value then wins; every other key reads as before; and
      every occurrence of the token becomes the list of generated names. */
  lemma ArrayStep(query: string, params: Params, k: string, values: seq<Value>)
    requires !IsNumericString(k)
    ensures
      var r := Step(query, params, Entry(StrKey(k), List(values)));
      && r.Success?
      && r.value.0 == StrReplace(ParamNameToReplace(k), Implode(", ", PlaceholderNames(k, |values|)), query)
      && Get(r.value.1, StrKey(k)) == None
      && (forall i :: 0 <= i < |values| ==>
            Get(r.value.1, StrKey(PlaceholderName(k, i))) ==
              if StrKey(PlaceholderName(k, i)) in Keys(params) then Get(params, StrKey(PlaceholderName(k, i)))
              else Some(values[i]))
      && (forall x :: x != StrKey(k) && x !in Keys(PlaceholderEntries(k, values)) ==>
            Get(r.value.1, x) == Get(params, x))
  {
    var placeholders := PlaceholderEntries(k, values);
    var p := Unset(Union(params, placeholders), StrKey(k));
    PlaceholderKeyNames(k, values);
    GetUnset(Union(params, placeholders), StrKey(k), StrKey(k));
    PlaceholderEntriesShape(k, values);
    forall i | 0 <= i < |values|
      ensures Get(p, StrKey(PlaceholderName(k, i))) ==
        if StrKey(PlaceholderName(k, i)) in Keys(params) then Get(params, StrKey(PlaceholderName(k, i)))
        else Some(values[i])
    {
      var name := StrKey(PlaceholderName(k, i));
      PlaceholderNameNotParamName(k, i);
      GetUnset(Union(params, placeholders), StrKey(k), name);
      GetUnion(params, placeholders, name);
      GetAt(placeholders, i);
    }
    forall x | x != StrKey(k) && x !in Keys(placeholders)
      ensures Get(p, x) == Get(params, x)
    {
      GetUnset(Union(params, placeholders), StrKey(k), x);
      GetUnion(params, placeholders, x);
    }
  }

  /** An empty array drops its key and replaces its token by nothing. */
  lemma EmptyArrayStep(query: string, params: Params, k: string)
    requires !IsNumericString(k)
    ensures Step(query, params, Entry(StrKey(k), List([]))) ==
            Success((StrReplace(ParamNameToReplace(k), "", query), Unset(params, StrKey(k))))
  {
  }

  /** A lone array parameter becomes exactly its placeholders, and the token
      becomes the list of their names. */
  lemma SingleArrayParameter(query: string, k: string, values: seq<Value>)
    requires !IsNumericString(k)
    ensures Transform(query, [Entry(StrKey(k), List(values))]) ==
            Outcome(StrReplace(ParamNameToReplace(k), Implode(", ", PlaceholderNames(k, |values|)), query),
                    PlaceholderEntries(k, values), None)
  {
    var e := Entry(StrKey(k), List(values));
    var placeholders := PlaceholderEntries(k, values);
    assert Unset(Union([e], placeholders), e.key) == placeholders by {
      PlaceholderEntriesShape(k, values);
      forall i | 0 <= i < |placeholders| ensures placeholders[i].key !in Keys([e]) {
        PlaceholderNameNotParamName(k, i);
      }
      UnionDisjoint([e], placeholders);
      forall i | 0 <= i < |placeholders| ensures Keys(placeholders)[i] != e.key {
        PlaceholderNameNotParamName(k, i);
      }
      UnsetHead(e, placeholders);
    }
    var q := StrReplace(ParamNameToReplace(k), Implode(", ", PlaceholderNames(k, |values|)), query);
    assert Step(query, [e], e) == Success((q, placeholders)) by {
      PlaceholderKeyNames(k, values);
    }
    assert Run(q, placeholders, [e][1..]) == Outcome(q, placeholders, None) by {
      assert [e][1..] == [];
    }
  }

  /** `:k` and `k` name the same parameter: either spelling gives the same query
      and the same parameters. */
  lemma ColonSpellingsAgree(query: string, k: string, values: seq<Value>)
    requires !IsNumericString(k) && (k == [] || k[0] != ':')
    ensures Transform(query, [Entry(StrKey(":" + k), List(values))]) ==
            Transform(query, [Entry(StrKey(k), List(values))])
  {
    var k1 := ":" + k;
    var outcome := Outcome(StrReplace(ParamNameToReplace(k), Implode(", ", PlaceholderNames(k, |values|)), query),
                           PlaceholderEntries(k, values), None);
    assert Transform(query, [Entry(StrKey(k1), List(values))]) == outcome by {
      assert LTrim(k1, ':') == LTrim(k, ':') by {
        assert k1[1..] == k;
      }
      SameTrimmedName(k1, k, values);
      assert ParamNameToReplace(k1) == ParamNameToReplace(k);
      ColonPrefixedNotNumeric(k1);
      SingleArrayParameter(query, k1, values);
    }
    assert Transform(query, [Entry(StrKey(k), List(values))]) == outcome by {
      SingleArrayParameter(query, k, values);
    }
  }

  /** In any parameters, the entries `:k` and `k` rewrite the query alike, and
      leave every key other than the two spellings reading alike. */
  lemma ColonSpellingsStep(query: string, params: Params, k: string, values: seq<Value>)
    requires !IsNumericString(k) && (k == [] || k[0] != ':')
    ensures var r1 := Step(query, params, Entry(StrKey(":" + k), List(values)));
            var r2 := Step(query, params, Entry(StrKey(k), List(values)));
            && r1.Success? && r2.Success?
            && r1.value.0 == r2.value.0
            && forall x :: x != StrKey(k) && x != StrKey(":" + k) ==> Get(r1.value.1, x) == Get(r2.value.1, x)
  {
    var k1 := ":" + k;
    var placeholders := PlaceholderEntries(k, values);
    var merged := Union(params, placeholders);
    var q := StrReplace(ParamNameToReplace(k), Implode(", ", KeyNames(Keys(placeholders))), query);
    assert Step(query, params, Entry(StrKey(k1), List(values))) == Success((q, Unset(merged, StrKey(k1)))) by {
      assert LTrim(k1, ':') == LTrim(k, ':') by {
        assert k1[1..] == k;
      }
      SameTrimmedName(k1, k, values);
      ColonPrefixedNotNumeric(k1);
      assert ParamNameToReplace(k1) == ParamNameToReplace(k);
    }
    assert Step(query, params, Entry(StrKey(k), List(values))) == Success((q, Unset(merged, StrKey(k))));
    forall x | x != StrKey(k) && x != StrKey(k1)
      ensures Get(Unset(merged, StrKey(k1)), x) == Get(Unset(merged, StrKey(k)), x)
    {
      GetUnset(merged, StrKey(k1), x);
      GetUnset(merged, StrKey(k), x);
    }
  }

  /** Names that agree once their leading colons are trimmed generate the same
      placeholders. */
  lemma SameTrimmedName(k1: string, k2: string, values: seq<Value>)
    requires LTrim(k1, ':') == LTrim(k2, ':')
    ensures PlaceholderEntries(k1, values) == PlaceholderEntries(k2, values)
    ensures PlaceholderNames(k1, |values|) == PlaceholderNames(k2, |values|)
  {
    var e1, e2 := PlaceholderEntries(k1, values), PlaceholderEntries(k2, values);
    forall i | 0 <= i < |values| ensures e1[i] == e2[i] {
      assert PlaceholderName(k1, i) == PlaceholderName(k2, i);
    }
    assert e1 == e2;
    var n1, n2 := PlaceholderNames(k1, |values|), PlaceholderNames(k2, |values|);
    forall i | 0 <= i < |values| ensures n1[i] == n2[i] {
      assert PlaceholderName(k1, i) == PlaceholderName(k2, i);
    }
    assert n1 == n2;
  }

  /** The case from the library's test, for any key `k` in place of `uuid`: a
      query ending in `(:k)` and two values under `k` give `(:k_0, :k_1)` and
      the two placeholders as the parameters. */
  lemma TwoElementArray(prefix: string, k: string, a: Value, b: Value)
    requires ':' !in prefix && ':' !in k && !IsNumericString(k)
    ensures var token := ":" + k;
            Transform(prefix + "(" + token + ")", [Entry(StrKey(k), List([a, b]))]) ==
              Outcome(prefix + "(" + (token + "_0") + ", " + (token + "_1") + ")",
                      [Entry(StrKey(token + "_0"), a), Entry(StrKey(token + "_1"), b)], None)
  {
    var token := ":" + k;
    var names := (token + "_0") + ", " + (token + "_1");
    TwoPlaceholders(k, a, b);
    assert ParamNameToReplace(k) == token;
    TokenInParentheses(prefix, token, names);
    SingleArrayParameter(prefix + "(" + token + ")", k, [a, b]);
  }

  /** The placeholders of a two-element array under a key without a colon. */
  lemma TwoPlaceholders(k: string, a: Value, b: Value)
    requires ':' !in k
    ensures var n0, n1 := ":" + k + "_0", ":" + k + "_1";
            PlaceholderEntries(k, [a, b]) == [Entry(StrKey(n0), a), Entry(StrKey(n1), b)] &&
            Implode(", ", PlaceholderNames(k, |[a, b]|)) == n0 + ", " + n1
  {
    var n0, n1 := ":" + k + "_0", ":" + k + "_1";
    assert LTrim(k, ':') == k by {
      if k != [] {
        assert k[0] in k;
      }
    }
    assert PlaceholderName(k, 0) == n0 by {
      assert NatToString(0) == "0";
      assert ":" + k + "_" + "0" == n0;
    }
    assert PlaceholderName(k, 1) == n1 by {
      assert NatToString(1) == "1";
      assert ":" + k + "_" + "1" == n1;
    }
    assert PlaceholderNames(k, 2) == [n0, n1];
    assert [n0, n1][1..] == [n1];
  }

  /** Replacing the only token of a query that ends in the token between
      parentheses. */
  lemma TokenInParentheses(prefix: string, token: string, names: string)
    requires token != [] && token[0] == ':' && ':' !in prefix
    ensures StrReplace(token, names, prefix + "(" + token + ")") == prefix + "(" + names + ")"
  {
    assert ReplaceAll(token, names, token + ")") == names + ")" by {
      assert (token + ")")[..|token|] == token && (token + ")")[|token|..] == ")";
      ReplaceAllSkip(token, names, ")", []);
      assert ")" + [] == ")";
      assert ReplaceAll(token, names, []) == [];
    }
    ReplaceAllSkip(token, names, prefix + "(", token + ")");
    assert prefix + "(" + (token + ")") == prefix + "(" + token + ")";
    assert prefix + "(" + (names + ")") == prefix + "(" + names + ")";
  }

  /** The token is replaced wherever it occurs, also at the start of a longer
      parameter name: expanding a one-element `k` turns `:k` followed by more
      name characters `x` into `:k_0` followed by `x` (`:idx` becomes `:id_0x`). */
  lemma TokenInsideLongerName(k: string, x: string, v: Value)
    requires !IsNumericString(k) && ':' !in k && ':' !in x
    ensures Transform(":" + k + x, [Entry(StrKey(k), List([v]))]).query == ":" + k + "_0" + x
  {
    var token := ":" + k;
    var name := ":" + k + "_0";
    SingleArrayParameter(token + x, k, [v]);
    assert k == [] || k[0] != ':' by {
      if k != [] {
        assert k[0] in k;
      }
    }
    assert LTrim(k, ':') == k && NatToString(0) == "0";
    assert PlaceholderName(k, 0) == ":" + k + "_" + "0" == name;
    assert PlaceholderNames(k, 1) == [name];
    assert ParamNameToReplace(k) == token;
    assert (token + x)[..|token|] == token && (token + x)[|token|..] == x;
    ReplaceAllSkip(token, name, x, []);
    assert x + [] == x;
    assert ReplaceAll(token, name, []) == [];
  }

  /** An array under a numeric key throws, even when empty, and leaves the query
      and parameters as they were. */
  lemma UnnamedArrayExample(query: string, values: seq<Value>)
    ensures
      var params := [Entry(IntKey(0), List(values))];
      Transform(query, params) == Outcome(query, params, Some(UnnamedArrayParameter(IntKey(0), List(values))))
  {
  }
}

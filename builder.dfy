/** src/Query/Builder.php: flattening query parameters and generating the
    named placeholders for an array parameter. */
module Query {
  import opened PhpArray
  import opened PhpString
  import opened Values

  // ---------------------------------------------------------------------------
  // flatParams

  /** What one parameter contributes to the flat list: an array its elements,
      anything else itself. */
  function Spread(v: Value): seq<Value> {
    if v.List? then v.elements else [v]
  }

  /** The flat parameter list: the contributions of the entries, in key order. */
  function Flatten(params: Params): seq<Value> {
    if params == [] then [] else Flatten(params[..|params| - 1]) + Spread(params[|params| - 1].value)
  }

  /** `flatParams($params)` */
  method FlatParams(params: Params) returns (flatParams: seq<Value>)
    requires UniqueKeys(params)
    ensures flatParams == Flatten(params)
  {
    flatParams := [];
    var paramsKeys := Keys(params);
    var indexOfKey := 0;
    while indexOfKey < |paramsKeys|
      invariant 0 <= indexOfKey <= |params| == |paramsKeys|
      invariant flatParams == Flatten(params[..indexOfKey])
    {
      var paramKey := paramsKeys[indexOfKey];
      GetAt(params, indexOfKey);
      var paramValues := Get(params, paramKey).value;
      var items := if paramValues.List? then paramValues.elements else [paramValues];
      ghost var done := flatParams;
      var j := 0;
      while j < |items|
        invariant 0 <= j <= |items|
        invariant flatParams == done + items[..j]
      {
        assert done + items[..j + 1] == flatParams + [items[j]] by {
          assert items[..j + 1] == items[..j] + [items[j]];
        }
        flatParams := flatParams + [items[j]];
        j := j + 1;
      }
      assert items[..|items|] == items;
      FlattenPrefix(params, indexOfKey);
      indexOfKey := indexOfKey + 1;
    }
    assert params[..|params|] == params;
  }

  /** One more entry adds its contribution at the end. */
  lemma FlattenPrefix(params: Params, i: nat)
    requires i < |params|
    ensures Flatten(params[..i + 1]) == Flatten(params[..i]) + Spread(params[i].value)
  {
    assert params[..i + 1][..i] == params[..i];
  }

  /** The number of parameters that are not arrays. */
  function ScalarCount(params: Params): nat {
    if params == [] then 0 else (if params[0].value.List? then 0 else 1) + ScalarCount(params[1..])
  }

  /** The total number of elements of the array parameters. */
  function ArrayElementCount(params: Params): nat {
    if params == [] then 0
    else (if params[0].value.List? then |params[0].value.elements| else 0) + ArrayElementCount(params[1..])
  }

  /** Flattening distributes over concatenation of parameter arrays. */
  lemma {:induction false} FlattenConcat(a: Params, b: Params)
    ensures Flatten(a + b) == Flatten(a) + Flatten(b)
    decreases |b|
  {
    if b == [] {
      assert a + b == a;
    } else {
      var n := |b| - 1;
      var b' := b[..n];
      assert Flatten(a + b) == Flatten(a + b') + Spread(b[n].value) by {
        assert (a + b)[..|a + b| - 1] == a + b';
        assert (a + b)[|a + b| - 1] == b[n];
      }
      FlattenConcat(a, b');
      assert Flatten(b) == Flatten(b') + Spread(b[n].value);
      var x, y, z := Flatten(a), Flatten(b'), Spread(b[n].value);
      assert (x + y) + z == x + (y + z);
    }
  }

  lemma {:induction false} FlattenCons(e: Entry<Value>, rest: Params)
    ensures Flatten([e] + rest) == Spread(e.value) + Flatten(rest)
  {
    FlattenConcat([e], rest);
    assert [e][..0] == [];
  }

  /** The flat list holds one value per scalar parameter plus every element of
      every array parameter. */
  lemma {:induction false} FlattenLength(params: Params)
    ensures |Flatten(params)| == ScalarCount(params) + ArrayElementCount(params)
    decreases |params|
  {
    if params != [] {
      assert params == [params[0]] + params[1..];
      FlattenCons(params[0], params[1..]);
      FlattenLength(params[1..]);
    }
  }

  /** Without array parameters, the flat list is the list of values in key order. */
  lemma {:induction false} FlattenScalars(params: Params)
    requires forall i :: 0 <= i < |params| ==> !params[i].value.List?
    ensures Flatten(params) == seq(|params|, i requires 0 <= i < |params| => params[i].value)
    decreases |params|
  {
    if params != [] {
      var init := params[..|params| - 1];
      FlattenScalars(init);
    }
  }

  /** Only one level is flattened: every value of the flat list is a parameter
      value itself or an element of an array parameter, arrays among those
      elements included. */
  lemma {:induction false} FlattenOneLevel(params: Params, x: Value)
    requires x in Flatten(params)
    ensures exists i :: 0 <= i < |params| &&
              ((!params[i].value.List? && params[i].value == x) ||
               (params[i].value.List? && x in params[i].value.elements))
    decreases |params|
  {
    var n := |params| - 1;
    var init := params[..n];
    if x in Flatten(init) {
      FlattenOneLevel(init, x);
      var i :| 0 <= i < |init| &&
              ((!init[i].value.List? && init[i].value == x) ||
               (init[i].value.List? && x in init[i].value.elements));
      assert init[i] == params[i];
    } else {
      assert x in Spread(params[n].value);
    }
  }

  /** The case from the library's test: arrays and a string, flattened in order. */
  lemma FlattenExample()
    ensures
      var a := Plain(Str("1st-value"));
      var b := Plain(Str("2nd-value"));
      var c := Plain(Str("3rd-value"));
      var s := Plain(Str("string-value"));
      var d := Plain(Str("abc"));
      var e := Plain(Str("def"));
      var f := Plain(Str("ghi"));
      Flatten([Entry(IntKey(0), List([a, b, c])), Entry(IntKey(1), s), Entry(IntKey(2), List([d, e, f]))])
        == [a, b, c, s, d, e, f]
  {
    var a := Plain(Str("1st-value"));
    var b := Plain(Str("2nd-value"));
    var c := Plain(Str("3rd-value"));
    var s := Plain(Str("string-value"));
    var d := Plain(Str("abc"));
    var e := Plain(Str("def"));
    var f := Plain(Str("ghi"));
    var e0, e1, e2 := Entry(IntKey(0), List([a, b, c])), Entry(IntKey(1), s), Entry(IntKey(2), List([d, e, f]));
    assert [e0, e1, e2][..2] == [e0, e1];
    assert [e0, e1][..1] == [e0];
    assert [e0][..0] == [];
    assert Flatten([e0]) == [a, b, c];
    assert Flatten([e0, e1]) == [a, b, c, s];
  }

  // ---------------------------------------------------------------------------
  // placeholders

  /** `sprintf(':%s_%d', ltrim($paramName, ':'), $index)` */
  function PlaceholderName(paramName: string, index: nat): string {
    ":" + LTrim(paramName, ':') + "_" + NatToString(index)
  }

  /** The placeholder array for an array parameter: one entry per value, in
      order, named after the parameter and the value's index. */
  function PlaceholderEntries(paramName: string, values: seq<Value>): Params {
    seq(|values|, i requires 0 <= i < |values| => Entry(StrKey(PlaceholderName(paramName, i)), values[i]))
  }

  /** `placeholders($paramName, $values)` */
  method Placeholders(paramName: string, values: seq<Value>) returns (placeholders: Params)
    ensures placeholders == PlaceholderEntries(paramName, values)
  {
    placeholders := [];
    var v := 0;
    while v < |values|
      invariant 0 <= v <= |values|
      invariant placeholders == PlaceholderEntries(paramName, values[..v])
    {
      var name := PlaceholderName(paramName, v);
      forall i | 0 <= i < v ensures Keys(placeholders)[i] != StrKey(name) {
        if PlaceholderName(paramName, i) == name {
          PlaceholderNamesDistinct(paramName, i, v);
        }
      }
      PutFresh(placeholders, StrKey(name), values[v]);
      placeholders := Put(placeholders, StrKey(name), values[v]);
      assert values[..v + 1][..v] == values[..v];
      v := v + 1;
    }
    assert values[..|values|] == values;
  }

  /** Different indexes give different placeholder names. */
  lemma PlaceholderNamesDistinct(paramName: string, i: nat, j: nat)
    requires i != j
    ensures PlaceholderName(paramName, i) != PlaceholderName(paramName, j)
  {
    var prefix := ":" + LTrim(paramName, ':') + "_";
    if PlaceholderName(paramName, i) == PlaceholderName(paramName, j) {
      assert PlaceholderName(paramName, i)[|prefix|..] == NatToString(i);
      assert PlaceholderName(paramName, j)[|prefix|..] == NatToString(j);
      NatToStringInjective(i, j);
    }
  }

  /** Every placeholder name starts with exactly one colon, whatever number of
      colons the parameter name started with. */
  lemma PlaceholderNameOneColon(paramName: string, index: nat)
    ensures var name := PlaceholderName(paramName, index);
      |name| >= 3 && name[0] == ':' && name[1] != ':'
  {
    var stem := LTrim(paramName, ':');
    var name := PlaceholderName(paramName, index);
    assert name[1] == if stem == [] then '_' else stem[0];
  }

  /** A placeholder name never equals the parameter name it was made from. */
  lemma PlaceholderNameNotParamName(paramName: string, index: nat)
    ensures PlaceholderName(paramName, index) != paramName
  {
    var stem := LTrim(paramName, ':');
    var name := PlaceholderName(paramName, index);
    var colons := |paramName| - |stem|;
    PlaceholderNameOneColon(paramName, index);
    if colons >= 2 {
      assert paramName[1] == ':';
    }
  }

  /** The generated entries: as many as values, in order, with pairwise distinct names. */
  lemma PlaceholderEntriesShape(paramName: string, values: seq<Value>)
    ensures var entries := PlaceholderEntries(paramName, values);
      && |entries| == |values|
      && (forall i :: 0 <= i < |values| ==>
            entries[i].key == StrKey(PlaceholderName(paramName, i)) && entries[i].value == values[i])
      && UniqueKeys(entries)
  {
    var entries := PlaceholderEntries(paramName, values);
    forall i, j | 0 <= i < j < |entries| ensures entries[i].key != entries[j].key {
      PlaceholderNamesDistinct(paramName, i, j);
    }
  }

  /** The case from the library's test. */
  lemma PlaceholdersExample()
    ensures
      var a := Plain(Str("1st-value"));
      var b := Plain(Str("2nd-value"));
      var c := Plain(Str("3rd-value"));
      PlaceholderEntries("foo", [a, b, c])
        == [Entry(StrKey(":foo_0"), a), Entry(StrKey(":foo_1"), b), Entry(StrKey(":foo_2"), c)]
  {
    assert LTrim("foo", ':') == "foo";
    assert NatToString(0) == "0" && NatToString(1) == "1" && NatToString(2) == "2";
    assert PlaceholderName("foo", 0) == ":foo_0";
    assert PlaceholderName("foo", 1) == ":foo_1";
    assert PlaceholderName("foo", 2) == ":foo_2";
  }
}

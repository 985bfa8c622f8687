/** The schema documentation generator: `cmd_details` walks a JSON Schema 2020-12
    property definition (`$ref`, `type`, `enum`, `minimum`, `maximum`,
    `minItems`, `maxItems`, `prefixItems`, `items`, `allOf`/`anyOf`/`oneOf`,
    `description`) into a nested list of reStructuredText lines,
    `cmd_details_print` renders that list as indented bullets, and `cmd_example`
    builds the indented code example of a command. */
module SchemaDoc {
  import opened Runtime
  import opened Text
  import opened Json

  /** An entry of the list `cmd_details` returns: a line of text, or the list a
      nested subschema produced. */
  datatype Detail = Line(text: string) | Nested(items: seq<Detail>)

  /** The definition name of a `$ref` value: the text after its first eight
      characters (`#/$defs/`). */
  function RefKey(ref: JSON): (r: Result<string>)
    ensures ref.Str? && |ref.s| >= 8 ==> r == Ok(ref.s[8..])
    ensures ref.Str? && |ref.s| < 8 ==> r == Ok("")
    ensures !ref.Str? ==> r.Err?
  {
    match ref
    case Str(s) => Ok(if |s| >= 8 then s[8..] else "")
    case _ => Err(TypeError)
  }

  /** The reference step shared by `cmd_details` and `cmd_example`: when the
      details carry a `$ref` naming an entry of the schema's `$defs`, the
      definition's keys are merged over the details and `$ref` is dropped. */
  function Resolve(details: JSON, schema: JSON): (r: Result<JSON>)
    ensures r.Ok? && r.value != details ==> details.Obj? && r.value.Obj? && !Has(r.value.fields, "$ref")
  {
    var hasRef :- Json.Contains("$ref", details);
    if !hasRef then Ok(details)
    else
      match details
      case Obj(fields) =>
        var key :- RefKey(Field(fields, "$ref"));
        var defs :- Subscript(schema, "$defs");
        var known :- Json.Contains(key, defs);
        if !known then Ok(details)
        else
          var def :- Subscript(defs, key);
          if def.Obj? then Ok(Obj(Remove(Merge(fields, def.fields), "$ref"))) else Err(TypeError)
      case _ => Err(TypeError)
  }

  /** A `$ref` to a definition replaces the reference by the definition: every key
      but `$ref` reads the definition's value when the definition has it, the
      details' own value otherwise. */
  lemma {:induction false} ResolveDefinition(fields: Dict, schema: JSON, key: string, def: Dict)
    requires Lookup(fields, "$ref") == Some(Str("#/$defs/" + key))
    requires schema.Obj? && Field(schema.fields, "$defs").Obj?
    requires Lookup(Field(schema.fields, "$defs").fields, key) == Some(Obj(def))
    ensures Resolve(Obj(fields), schema).Ok?
    ensures var r := Resolve(Obj(fields), schema).value;
            && r.Obj? && !Has(r.fields, "$ref")
            && forall k :: k != "$ref" ==> Lookup(r.fields, k) == if Has(def, k) then Lookup(def, k) else Lookup(fields, k)
  {
    ResolveMerged(fields, schema, key, def);
    forall k | k != "$ref"
      ensures Lookup(Remove(Merge(fields, def), "$ref"), k) == if Has(def, k) then Lookup(def, k) else Lookup(fields, k)
    {
      LookupMerge(fields, def, k);
    }
  }

  lemma {:induction false} ResolveMerged(fields: Dict, schema: JSON, key: string, def: Dict)
    requires Lookup(fields, "$ref") == Some(Str("#/$defs/" + key))
    requires schema.Obj? && Field(schema.fields, "$defs").Obj?
    requires Lookup(Field(schema.fields, "$defs").fields, key) == Some(Obj(def))
    ensures Resolve(Obj(fields), schema) == Ok(Obj(Remove(Merge(fields, def), "$ref")))
  {
    var s := "#/$defs/" + key;
    assert s[8..] == key;
    var defs := Field(schema.fields, "$defs");
    assert Json.Contains("$ref", Obj(fields)) == Ok(true);
    assert RefKey(Field(fields, "$ref")) == Ok(key);
    assert Subscript(schema, "$defs") == Ok(defs);
    assert Json.Contains(key, defs) == Ok(true);
    assert Subscript(defs, key) == Ok(Obj(def));
  }

  /** A `$ref` naming no definition leaves the details as they are. */
  lemma {:induction false} ResolveUnknown(fields: Dict, schema: JSON, key: string)
    requires Lookup(fields, "$ref") == Some(Str("#/$defs/" + key))
    requires schema.Obj? && Field(schema.fields, "$defs").Obj?
    requires !Has(Field(schema.fields, "$defs").fields, key)
    ensures Resolve(Obj(fields), schema) == Ok(Obj(fields))
  {
    var s := "#/$defs/" + key;
    assert s[8..] == key;
  }

  /** `"s" if n > 1 else ""`; comparing a non-number with 1 raises. */
  function Plural(n: JSON): (r: Result<string>)
    ensures r.Ok? <==> AsInt(n).Some?
    ensures r.Ok? ==> (r.value == "s" <==> AsInt(n).value > 1) && (r.value == "" <==> AsInt(n).value <= 1)
  {
    match AsInt(n)
    case Some(i) => Ok(if i > 1 then "s" else "")
    case None => Err(TypeError)
  }

  /** The tag a type line carries until the item count is known. */
  const Placeholder := "items_msg"

  /** The `type` line, with an `items_msg` placeholder for the item count when
      `minItems` or `maxItems` is present. */
  function TypeLines(d: JSON): (r: Result<seq<Detail>>)
    ensures !d.Obj? ==> r.Err? || r == Ok([])
    ensures d.Obj? && !Field(d.fields, "type").Arr? ==> r.Ok?
    ensures d.Obj? && Field(d.fields, "type").Arr? ==>
              (r.Ok? <==> forall k :: 0 <= k < |Field(d.fields, "type").items| ==> Field(d.fields, "type").items[k].Str?)
    ensures d.Obj? && r.Ok? ==>
              |r.value| <= 1 && (|r.value| == 1 <==> Field(d.fields, "type").Str? || Field(d.fields, "type").Arr?)
    ensures r.Ok? && |r.value| == 1 ==> r.value[0].Line? && StartsWith(r.value[0].text, "**")
    ensures d.Obj? && r.Ok? && |r.value| == 1 && (Has(d.fields, "minItems") || Has(d.fields, "maxItems")) ==>
              EndsWith(r.value[0].text, " " + Placeholder)
  {
    var hasType :- Json.Contains("type", d);
    if !hasType then Ok([])
    else if !d.Obj? then Err(AttributeError)
    else
      var placeholder := if Has(d.fields, "minItems") || Has(d.fields, "maxItems") then " " + Placeholder else "";
      match Field(d.fields, "type")
      case Str(t) => Ok([Line("**" + Capitalize(t) + "**" + placeholder)])
      case Arr(types) =>
        var names :- CapitalizeAll(types);
        Ok([Line("**" + Join(names, ", ") + "**" + " " + placeholder)])
      case _ => Ok([])
  }

  /** `[x.capitalize() for x in types]`; only strings have `capitalize`. */
  function CapitalizeAll(types: seq<JSON>): (r: Result<seq<string>>)
    ensures r.Ok? <==> forall k :: 0 <= k < |types| ==> types[k].Str?
    ensures r.Ok? ==> |r.value| == |types| && forall k :: 0 <= k < |types| ==> r.value[k] == Capitalize(types[k].s)
  {
    if |types| == 0 then Ok([])
    else if !types[0].Str? then Err(AttributeError)
    else
      var rest :- CapitalizeAll(types[1..]);
      Ok([Capitalize(types[0].s)] + rest)
  }

  /** The `enum` line: the allowed values, `str`'d and comma-separated. */
  function EnumLines(d: JSON): Result<seq<Detail>>
  {
    var hasEnum :- Json.Contains("enum", d);
    if !hasEnum then Ok([])
    else
      var values :- Subscript(d, "enum");
      var xs :- Iter(values);
      Ok([Line("*Values:* " + Join(ToStrs(xs), ", "))])
  }

  function ToStrs(xs: seq<JSON>): (r: seq<string>)
    ensures |r| == |xs| && forall k :: 0 <= k < |xs| ==> r[k] == ToStr(xs[k])
  {
    if |xs| == 0 then [] else [ToStr(xs[0])] + ToStrs(xs[1..])
  }

  /** The `minimum` or `maximum` line. */
  function BoundLines(d: JSON, key: string, title: string): Result<seq<Detail>>
  {
    var has :- Json.Contains(key, d);
    if !has then Ok([])
    else
      var v :- Subscript(d, key);
      Ok([Line(title + ToStr(v))])
  }

  /** The item-count text, as written: `minItems` alone reads `maxItems`. */
  function ItemCountAsWritten(d: JSON): Result<Option<string>>
  {
    var hasMin :- Json.Contains("minItems", d);
    if hasMin then
      var hasMax :- Json.Contains("maxItems", d);
      if hasMax then BothCounts(d)
      else
        var max :- Subscript(d, "maxItems");
        var s :- Plural(max);
        Ok(Some("(At least " + ToStr(max) + " item" + s + ")"))
    else MaxCount(d)
  }

  /** The item-count text, with the lower bound alone reported from `minItems`. */
  function ItemCount(d: JSON): Result<Option<string>>
  {
    var hasMin :- Json.Contains("minItems", d);
    if hasMin then
      var hasMax :- Json.Contains("maxItems", d);
      if hasMax then BothCounts(d)
      else
        var min :- Subscript(d, "minItems");
        var s :- Plural(min);
        Ok(Some("(At least " + ToStr(min) + " item" + s + ")"))
    else MaxCount(d)
  }

  function BothCounts(d: JSON): Result<Option<string>>
  {
    var min :- Subscript(d, "minItems");
    var max :- Subscript(d, "maxItems");
    if Equal(min, max) then
      var s :- Plural(max);
      Ok(Some("(Exactly " + ToStr(max) + " item" + s + ")"))
    else Ok(Some("(Between " + ToStr(min) + " and " + ToStr(max) + " items)"))
  }

  function MaxCount(d: JSON): Result<Option<string>>
  {
    var hasMax :- Json.Contains("maxItems", d);
    if !hasMax then Ok(None)
    else
      var max :- Subscript(d, "maxItems");
      var s :- Plural(max);
      Ok(Some("(Up to " + ToStr(max) + " item" + s + ")"))
  }

  /** The item-count text for integer bounds: "Exactly" when they agree,
      "Between" when they differ, "At least" or "Up to" when only one is given,
      nothing when neither is; "item" takes an "s" only for a count above one. */
  lemma {:induction false} ItemCountCases(fields: Dict, a: int, b: int)
    requires Has(fields, "minItems") ==> Lookup(fields, "minItems") == Some(Int(a))
    requires Has(fields, "maxItems") ==> Lookup(fields, "maxItems") == Some(Int(b))
    ensures var r := ItemCount(Obj(fields));
            && r.Ok?
            && (Has(fields, "minItems") && Has(fields, "maxItems") && a == b ==>
                  r.value == Some("(Exactly " + IntToString(b) + " item" + (if b > 1 then "s" else "") + ")"))
            && (Has(fields, "minItems") && Has(fields, "maxItems") && a != b ==>
                  r.value == Some("(Between " + IntToString(a) + " and " + IntToString(b) + " items)"))
            && (Has(fields, "minItems") && !Has(fields, "maxItems") ==>
                  r.value == Some("(At least " + IntToString(a) + " item" + (if a > 1 then "s" else "") + ")"))
            && (!Has(fields, "minItems") && Has(fields, "maxItems") ==>
                  r.value == Some("(Up to " + IntToString(b) + " item" + (if b > 1 then "s" else "") + ")"))
            && (!Has(fields, "minItems") && !Has(fields, "maxItems") ==> r.value == None)
  {
  }

  /** As written, a schema giving `minItems` without `maxItems` makes the
      generator raise `KeyError('maxItems')`. */
  lemma {:induction false} MinItemsAloneRaises(n: int)
    ensures ItemCountAsWritten(Obj([("type", Str("array")), ("minItems", Int(n))])) == Err(KeyError("maxItems"))
    ensures ItemCount(Obj([("type", Str("array")), ("minItems", Int(n))])) ==
            Ok(Some("(At least " + IntToString(n) + " item" + (if n > 1 then "s" else "") + ")"))
  {
    var fields := [("type", Str("array")), ("minItems", Int(n))];
    assert fields[1].0 == "minItems";
    assert !Has(fields, "maxItems");
  }

  /** Where the lines hold the `items_msg` placeholder it is replaced by the
      item-count text; nested lists are left alone. */
  function Filled(configs: seq<Detail>, msg: string): (r: seq<Detail>)
    ensures |r| == |configs|
    ensures forall k :: 0 <= k < |configs| && configs[k].Line? ==> r[k] == Line(Replace(configs[k].text, Placeholder, msg))
    ensures forall k :: 0 <= k < |configs| && configs[k].Nested? ==> r[k] == configs[k]
  {
    if |configs| == 0 then []
    else
      var head := if configs[0].Line? then Line(Replace(configs[0].text, Placeholder, msg)) else configs[0];
      var rest := Filled(configs[1..], msg);
      var r := [head] + rest;
      assert forall k :: 1 <= k < |configs| ==> configs[k] == configs[1..][k - 1] && r[k] == rest[k - 1];
      r
  }

  /** The in-place rewrite of the placeholder over the entries gathered so far. */
  method FillItemCount(configs: array<Detail>, msg: string)
    modifies configs
    ensures configs[..] == Filled(old(configs[..]), msg)
  {
    ghost var before := configs[..];
    var idx := 0;
    while idx < configs.Length
      invariant 0 <= idx <= configs.Length
      invariant forall k :: 0 <= k < idx ==> configs[k] == Filled(before, msg)[k]
      invariant forall k :: idx <= k < configs.Length ==> configs[k] == before[k]
    {
      match configs[idx] {
        case Line(s) => configs[idx] := Line(Replace(s, Placeholder, msg));
        case Nested(_) =>
      }
      idx := idx + 1;
    }
  }

  /** A line without the placeholder is not changed by filling. */
  lemma {:induction false} FilledNoPlaceholder(configs: seq<Detail>, msg: string)
    requires forall k :: 0 <= k < |configs| && configs[k].Line? ==> !Text.Contains(configs[k].text, "items_msg")
    ensures Filled(configs, msg) == configs
  {
  }

  /** Replacing the placeholder at the end of a text that holds no earlier
      occurrence of it. */
  lemma {:induction false} ReplacePlaceholder(a: string, rep: string)
    requires forall k :: 0 <= k < |a| ==> !OccursAt(a + "items_msg", "items_msg", k)
    ensures Filled([Line(a + Placeholder)], rep) == [Line(a + rep)]
  {
    var s := a + "items_msg";
    assert s + "" == s;
    ReplaceFirst(a, "items_msg", "", rep);
    assert Replace("", "items_msg", rep) == "" by {
      assert !Text.Contains("", "items_msg");
    }
    assert a + rep + "" == a + rep;
    assert Replace(s, "items_msg", rep) == a + rep;
  }

  /** The head lines of a schema whose only head line is its type line. */
  lemma {:induction false} OnlyTypeLine(fields: Dict, line: Detail, msg: string)
    requires TypeLines(Obj(fields)) == Ok([line]) && ItemCount(Obj(fields)) == Ok(Some(msg))
    requires !Has(fields, "enum") && !Has(fields, "minimum") && !Has(fields, "maximum")
    ensures HeadLines(Obj(fields)) == Ok(Filled([line], msg))
  {
    NoValueLines(fields);
    assert [line] + [] + [] + [] == [line];
  }

  /** A type line holds the placeholder only where it was added, provided the
      type names do not spell it. */
  lemma {:induction false} PlaceholderOnlyAtEnd(names: string, gap: string)
    requires !Text.Contains(names, "items_msg") && forall j :: 0 <= j < |gap| ==> gap[j] == ' '
    ensures var a := "**" + names + "**" + gap;
            forall k :: 0 <= k < |a| ==> !OccursAt(a + "items_msg", "items_msg", k)
  {
    var a := "**" + names + "**" + gap;
    var s := a + "items_msg";
    assert '*' !in "items_msg" && ' ' !in "items_msg";
    forall k | 0 <= k < |a|
      ensures !OccursAt(s, "items_msg", k)
    {
      if k + 9 <= |s| {
        if 2 <= k && k + 9 <= 2 + |names| {
          assert names[k - 2..k + 7] == s[k..k + 9];
          assert !OccursAt(names, "items_msg", k - 2);
        } else {
          var p := if k < 2 then k else if k < 2 + |names| then 2 + |names| else k;
          assert k <= p < k + 9;
          assert s[p] == '*' || s[p] == ' ';
          assert s[k..k + 9][p - k] == s[p];
          assert s[k..k + 9][p - k] !in "items_msg";
          assert "items_msg"[p - k] in "items_msg";
        }
      }
    }
  }

  /** A type line for an array with an item bound carries the placeholder. */
  lemma {:induction false} TypeLineWithPlaceholder(fields: Dict, t: JSON)
    requires Lookup(fields, "type") == Some(t) && (Has(fields, "minItems") || Has(fields, "maxItems"))
    requires t.Str? || (t.Arr? && forall k :: 0 <= k < |t.items| ==> t.items[k].Str?)
    ensures t.Str? ==> TypeLines(Obj(fields)) == Ok([Line("**" + Capitalize(t.s) + "**" + (" " + Placeholder))])
    ensures t.Arr? ==> TypeLines(Obj(fields)) == Ok([Line("**" + Join(CapitalizeAll(t.items).value, ", ") + "**" + " " + (" " + Placeholder))])
  {
  }

  /** Without `enum`, `minimum` and `maximum` the type line is the only head line. */
  lemma {:induction false} NoValueLines(fields: Dict)
    requires !Has(fields, "enum") && !Has(fields, "minimum") && !Has(fields, "maximum")
    ensures EnumLines(Obj(fields)) == Ok([])
    ensures BoundLines(Obj(fields), "minimum", "*Minimum:* ") == Ok([])
    ensures BoundLines(Obj(fields), "maximum", "*Maximum:* ") == Ok([])
  {
  }

  /** A single type with equal integer item bounds reads
      `**Type** (Exactly n item[s])`. */
  lemma {:induction false} ExactTypeLine(fields: Dict, t: string, n: int)
    requires Lookup(fields, "type") == Some(Str(t)) && !Text.Contains(Capitalize(t), "items_msg")
    requires Lookup(fields, "minItems") == Some(Int(n)) && Lookup(fields, "maxItems") == Some(Int(n))
    requires !Has(fields, "enum") && !Has(fields, "minimum") && !Has(fields, "maximum")
    ensures HeadLines(Obj(fields)) ==
            Ok([Line("**" + Capitalize(t) + "**" + " " + ("(Exactly " + IntToString(n) + " item" + (if n > 1 then "s" else "") + ")"))])
  {
    var msg := "(Exactly " + IntToString(n) + " item" + (if n > 1 then "s" else "") + ")";
    var a := "**" + Capitalize(t) + "**" + " ";
    assert TypeLines(Obj(fields)) == Ok([Line(a + Placeholder)]) by {
      TypeLineWithPlaceholder(fields, Str(t));
      assert "**" + Capitalize(t) + "**" + (" " + Placeholder) == a + Placeholder;
    }
    assert ItemCount(Obj(fields)) == Ok(Some(msg)) by {
      ItemCountCases(fields, n, n);
    }
    assert Filled([Line(a + Placeholder)], msg) == [Line(a + msg)] by {
      PlaceholderOnlyAtEnd(Capitalize(t), " ");
      ReplacePlaceholder(a, msg);
    }
    OnlyTypeLine(fields, Line(a + Placeholder), msg);
  }

  /** A list of types with an integer upper bound only reads
      `**Type, Type**  (Up to n item[s])`, with two spaces before the count. */
  lemma {:induction false} UpToTypesLine(fields: Dict, types: seq<JSON>, n: int)
    requires Lookup(fields, "type") == Some(Arr(types)) && forall k :: 0 <= k < |types| ==> types[k].Str?
    requires !Text.Contains(Join(CapitalizeAll(types).value, ", "), "items_msg")
    requires !Has(fields, "minItems") && Lookup(fields, "maxItems") == Some(Int(n))
    requires !Has(fields, "enum") && !Has(fields, "minimum") && !Has(fields, "maximum")
    ensures HeadLines(Obj(fields)) ==
            Ok([Line("**" + Join(CapitalizeAll(types).value, ", ") + "**" + (" " + " ") + ("(Up to " + IntToString(n) + " item" + (if n > 1 then "s" else "") + ")"))])
  {
    var names := Join(CapitalizeAll(types).value, ", ");
    var msg := "(Up to " + IntToString(n) + " item" + (if n > 1 then "s" else "") + ")";
    var a := "**" + names + "**" + (" " + " ");
    assert TypeLines(Obj(fields)) == Ok([Line(a + Placeholder)]) by {
      TypeLineWithPlaceholder(fields, Arr(types));
      assert "**" + names + "**" + " " + (" " + Placeholder) == a + Placeholder;
    }
    assert ItemCount(Obj(fields)) == Ok(Some(msg)) by {
      ItemCountCases(fields, 0, n);
    }
    assert Filled([Line(a + Placeholder)], msg) == [Line(a + msg)] by {
      PlaceholderOnlyAtEnd(names, " " + " ");
      ReplacePlaceholder(a, msg);
    }
    OnlyTypeLine(fields, Line(a + Placeholder), msg);
  }

  /** `cmd_details(details, schema, level)`; `fuel` bounds the depth of the
      recursion, standing for Python's recursion limit (a `$ref` cycle recurses
      until `RecursionError`). */
  function CmdDetails(details: JSON, schema: JSON, level: nat, fuel: nat): (r: Result<seq<Detail>>)
    ensures fuel == 0 ==> r == Err(RecursionError)
    ensures fuel > 0 && Resolve(details, schema).Err? ==> r == Err(Resolve(details, schema).error)
    ensures r.Ok? ==> fuel > 0 && Resolve(details, schema).Ok? && HeadLines(Resolve(details, schema).value).Ok?
    ensures r.Ok? ==>
              var head := HeadLines(Resolve(details, schema).value).value;
              |head| <= |r.value| && r.value[..|head|] == head
    ensures r.Ok? && level > 0 && Resolve(details, schema).value.Obj? && Has(Resolve(details, schema).value.fields, "description") ==>
              r.value != [] && r.value[|r.value| - 1] == Line("*" + ToStr(Field(Resolve(details, schema).value.fields, "description")) + "*")
    decreases fuel, 0, 0
  {
    if fuel == 0 then Err(RecursionError)
    else
      var d :- Resolve(details, schema);
      var head :- HeadLines(d);
      var prefix :- PrefixDetails(d, schema, level, fuel - 1);
      var items :- ItemsDetails(d, schema, level, fuel - 1);
      var of :- OfDetails(d, schema, level, fuel - 1);
      var description :- DescriptionLines(d, level);
      Ok(head + prefix + items + of + description)
  }

  /** The type, enum, minimum and maximum lines with the item count filled in. */
  function HeadLines(d: JSON): Result<seq<Detail>>
  {
    var typeLines :- TypeLines(d);
    var enumLines :- EnumLines(d);
    var minimum :- BoundLines(d, "minimum", "*Minimum:* ");
    var maximum :- BoundLines(d, "maximum", "*Maximum:* ");
    var count :- ItemCount(d);
    var head := typeLines + enumLines + minimum + maximum;
    Ok(match count case Some(msg) => Filled(head, msg) case None => head)
  }

  /** The `prefixItems` block: a heading counting the positional items, then one
      nested list per item that is an object. */
  function PrefixDetails(d: JSON, schema: JSON, level: nat, fuel: nat): Result<seq<Detail>>
    decreases fuel, 2, 0
  {
    var has :- Json.Contains("prefixItems", d);
    if !has then Ok([])
    else
      var v :- Subscript(d, "prefixItems");
      var n :- Len(v);
      var xs :- Iter(v);
      var nested :- ObjectDetails(xs, schema, level + 1, fuel);
      Ok([Line("*Order and type for first " + IntToString(n) + " item" + (if n > 1 then "s" else "") + " (Required)*")] + nested)
  }

  /** The `items` block: one nested list for an object, one per object entry of a
      list. */
  function ItemsDetails(d: JSON, schema: JSON, level: nat, fuel: nat): Result<seq<Detail>>
    decreases fuel, 2, 0
  {
    var has :- Json.Contains("items", d);
    if !has then Ok([])
    else
      var v :- Subscript(d, "items");
      match v
      case Obj(_) =>
        var sub :- CmdDetails(v, schema, level + 1, fuel);
        Ok([Nested(sub)])
      case Arr(xs) => ObjectDetails(xs, schema, level + 1, fuel)
      case _ => Ok([])
  }

  /** The nested lists of the object entries of `xs`, in order. */
  function ObjectDetails(xs: seq<JSON>, schema: JSON, level: nat, fuel: nat): (r: Result<seq<Detail>>)
    ensures r.Ok? <==> forall k :: 0 <= k < |ObjectsOf(xs)| ==> CmdDetails(ObjectsOf(xs)[k], schema, level, fuel).Ok?
    ensures r.Ok? ==> |r.value| == |ObjectsOf(xs)|
    ensures r.Ok? ==> forall k :: 0 <= k < |r.value| ==>
              r.value[k] == Nested(CmdDetails(ObjectsOf(xs)[k], schema, level, fuel).value)
    decreases fuel, 1, |xs|
  {
    if |xs| == 0 then Ok([])
    else if !xs[0].Obj? then
      assert ObjectsOf(xs) == ObjectsOf(xs[1..]);
      ObjectDetails(xs[1..], schema, level, fuel)
    else
      assert ObjectsOf(xs) == [xs[0]] + ObjectsOf(xs[1..]);
      var sub :- CmdDetails(xs[0], schema, level, fuel);
      var rest :- ObjectDetails(xs[1..], schema, level, fuel);
      Ok([Nested(sub)] + rest)
  }

  /** The objects among `xs`, in order. */
  function ObjectsOf(xs: seq<JSON>): (r: seq<JSON>)
    ensures forall k :: 0 <= k < |r| ==> r[k].Obj? && r[k] in xs
    ensures forall x :: x in xs && x.Obj? ==> x in r
  {
    if |xs| == 0 then []
    else if xs[0].Obj? then [xs[0]] + ObjectsOf(xs[1..])
    else ObjectsOf(xs[1..])
  }

  /** The combinator block: the later keyword wins (`allOf` over `anyOf` over
      `oneOf`); a heading, then one nested list per subschema. */
  function OfDetails(d: JSON, schema: JSON, level: nat, fuel: nat): Result<seq<Detail>>
    decreases fuel, 2, 0
  {
    var anyOf :- Json.Contains("anyOf", d);
    var oneOf :- Json.Contains("oneOf", d);
    var allOf :- Json.Contains("allOf", d);
    if !(anyOf || oneOf || allOf) then Ok([])
    else
      var key := Combinator(allOf, anyOf);
      var v :- Subscript(d, key);
      var xs :- Iter(v);
      var subs :- SubschemaDetails(xs, schema, level + 1, fuel);
      Ok([Line(CombinatorHeading(key))] + subs)
  }

  function Combinator(allOf: bool, anyOf: bool): string
  {
    if allOf then "allOf" else if anyOf then "anyOf" else "oneOf"
  }

  function CombinatorHeading(key: string): string
  {
    if key == "allOf" then "``**All**`` of the following"
    else if key == "anyOf" then "``Any`` of the following"
    else "Only ``One`` of the following"
  }

  /** The nested lists of every subschema of `xs`, in order. */
  function SubschemaDetails(xs: seq<JSON>, schema: JSON, level: nat, fuel: nat): (r: Result<seq<Detail>>)
    ensures r.Ok? <==> forall k :: 0 <= k < |xs| ==> CmdDetails(xs[k], schema, level, fuel).Ok?
    ensures r.Ok? ==> |r.value| == |xs|
    ensures r.Ok? ==> forall k :: 0 <= k < |xs| ==> r.value[k] == Nested(CmdDetails(xs[k], schema, level, fuel).value)
    decreases fuel, 1, |xs|
  {
    if |xs| == 0 then Ok([])
    else
      var sub :- CmdDetails(xs[0], schema, level, fuel);
      var rest :- SubschemaDetails(xs[1..], schema, level, fuel);
      var r := [Nested(sub)] + rest;
      AfterHeading(r, Nested(sub), rest);
      Ok(r)
  }

  /** The combinator block of an object: the heading of the keyword that wins,
      then exactly one nested list per subschema of that keyword. */
  lemma {:induction false} OfPrecedence(fields: Dict, schema: JSON, level: nat, fuel: nat)
    requires Has(fields, "allOf") || Has(fields, "anyOf") || Has(fields, "oneOf")
    requires OfDetails(Obj(fields), schema, level, fuel).Ok?
    ensures var key := if Has(fields, "allOf") then "allOf" else if Has(fields, "anyOf") then "anyOf" else "oneOf";
            var r := OfDetails(Obj(fields), schema, level, fuel).value;
            && Iter(Field(fields, key)).Ok?
            && |r| == 1 + |Iter(Field(fields, key)).value|
            && r[0] == Line(if key == "allOf" then "``**All**`` of the following"
                            else if key == "anyOf" then "``Any`` of the following"
                            else "Only ``One`` of the following")
            && (forall k :: 0 <= k < |Iter(Field(fields, key)).value| ==>
                  CmdDetails(Iter(Field(fields, key)).value[k], schema, level + 1, fuel).Ok?)
            && forall k :: 1 <= k < |r| ==>
                 r[k] == Nested(CmdDetails(Iter(Field(fields, key)).value[k - 1], schema, level + 1, fuel).value)
  {
    var key := OfBlock(fields, schema, level, fuel);
    var xs := Iter(Field(fields, key)).value;
    var subs := SubschemaDetails(xs, schema, level + 1, fuel).value;
    var r := OfDetails(Obj(fields), schema, level, fuel).value;
    AfterHeading(r, Line(CombinatorHeading(key)), subs);
    forall k | 1 <= k < |r|
      ensures r[k] == Nested(CmdDetails(xs[k - 1], schema, level + 1, fuel).value)
    {
      assert r[k] == subs[k - 1];
    }
  }

  lemma {:induction false} AfterHeading(r: seq<Detail>, heading: Detail, subs: seq<Detail>)
    requires r == [heading] + subs
    ensures |r| == 1 + |subs| && r[0] == heading
    ensures forall k :: 1 <= k < |r| ==> r[k] == subs[k - 1]
  {
  }

  /** The combinator block of an object is the winning keyword's heading
      followed by the nested lists of its subschemas. */
  lemma {:induction false} OfBlock(fields: Dict, schema: JSON, level: nat, fuel: nat) returns (key: string)
    requires Has(fields, "allOf") || Has(fields, "anyOf") || Has(fields, "oneOf")
    requires OfDetails(Obj(fields), schema, level, fuel).Ok?
    ensures key == if Has(fields, "allOf") then "allOf" else if Has(fields, "anyOf") then "anyOf" else "oneOf"
    ensures Iter(Field(fields, key)).Ok?
    ensures SubschemaDetails(Iter(Field(fields, key)).value, schema, level + 1, fuel).Ok?
    ensures OfDetails(Obj(fields), schema, level, fuel).value ==
            [Line(CombinatorHeading(key))] + SubschemaDetails(Iter(Field(fields, key)).value, schema, level + 1, fuel).value
  {
    var d := Obj(fields);
    assert Json.Contains("anyOf", d) == Ok(Has(fields, "anyOf"));
    assert Json.Contains("oneOf", d) == Ok(Has(fields, "oneOf"));
    assert Json.Contains("allOf", d) == Ok(Has(fields, "allOf"));
    key := Combinator(Has(fields, "allOf"), Has(fields, "anyOf"));
    assert Subscript(d, key) == Ok(Field(fields, key));
  }

  /** The description line, only below the top level. */
  function DescriptionLines(d: JSON, level: nat): (r: Result<seq<Detail>>)
    ensures level == 0 && r.Ok? ==> r.value == []
    ensures d.Obj? && level > 0 ==>
              r == if Has(d.fields, "description") then Ok([Line("*" + ToStr(Field(d.fields, "description")) + "*")]) else Ok([])
  {
    var has :- Json.Contains("description", d);
    if has && level > 0 then
      var v :- Subscript(d, "description");
      Ok([Line("*" + ToStr(v) + "*")])
    else Ok([])
  }

  /** `cmd_details_print(details, level)`: a line at level `L` is a bullet
      indented by `L` double spaces; a nested list is a blank line followed by
      its own bullets one level deeper. */
  function Printed(details: seq<Detail>, level: nat): string
    decreases details
  {
    if |details| == 0 then ""
    else
      var head := match details[0]
        case Line(s) => Bullet(s, level)
        case Nested(items) => "\n" + Printed(items, level + 1);
      head + Printed(details[1..], level)
  }

  function Bullet(s: string, level: nat): string
  {
    RepeatString("  ", level) + "- " + s + "\n"
  }

  /** Printing a concatenation prints the parts one after the other. */
  lemma {:induction false} PrintedAppend(a: seq<Detail>, b: seq<Detail>, level: nat)
    ensures Printed(a + b, level) == Printed(a, level) + Printed(b, level)
  {
    if |a| == 0 {
      assert a + b == b;
    } else {
      assert (a + b)[0] == a[0];
      assert (a + b)[1..] == a[1..] + b;
      PrintedAppend(a[1..], b, level);
    }
  }

  /** The text of a single entry. */
  lemma {:induction false} PrintedSingle(d: Detail, level: nat)
    ensures d.Line? ==> Printed([d], level) == Bullet(d.text, level)
    ensures d.Nested? ==> Printed([d], level) == "\n" + Printed(d.items, level + 1)
  {
    assert [d][1..] == [];
  }

  /** The bullets of a flat list of lines. */
  function Bullets(lines: seq<string>, level: nat): (r: seq<string>)
    ensures |r| == |lines| && forall k :: 0 <= k < |lines| ==> r[k] == RepeatString("  ", level) + "- " + lines[k]
  {
    if |lines| == 0 then [] else [RepeatString("  ", level) + "- " + lines[0]] + Bullets(lines[1..], level)
  }

  function Texts(details: seq<Detail>): seq<string>
    requires forall k :: 0 <= k < |details| ==> details[k].Line?
  {
    if |details| == 0 then [] else [details[0].text] + Texts(details[1..])
  }

  /** A flat list of one-line entries prints as one bullet line per entry, in
      order: splitting the text at newlines gives back exactly those bullets. */
  lemma {:induction false} PrintedLines(details: seq<Detail>, level: nat)
    requires forall k :: 0 <= k < |details| ==> details[k].Line? && '\n' !in details[k].text
    ensures Split(Printed(details, level), '\n') == Bullets(Texts(details), level) + [""]
  {
    if |details| == 0 {
    } else {
      var b := RepeatString("  ", level) + "- " + details[0].text;
      IndentNoNewline(level);
      assert '\n' !in b;
      PrintedLines(details[1..], level);
      assert Printed(details, level) == b + ['\n'] + Printed(details[1..], level);
      SplitPrefix(b, Printed(details[1..], level), '\n');
    }
  }

  lemma {:induction false} IndentNoNewline(level: nat)
    ensures '\n' !in RepeatString("  ", level)
  {
    if level > 0 {
      IndentNoNewline(level - 1);
    }
  }

  /** The loop of `cmd_details_print`. */
  method PrintDetails(details: seq<Detail>, level: nat) returns (out: string)
    ensures out == Printed(details, level)
    decreases details
  {
    out := "";
    var i := 0;
    while i < |details|
      invariant 0 <= i <= |details|
      invariant out == Printed(details[..i], level)
    {
      var detail := details[i];
      assert Printed(details[..i + 1], level) == out + Printed([detail], level) by {
        assert details[..i + 1] == details[..i] + [detail];
        PrintedAppend(details[..i], [detail], level);
      }
      PrintedSingle(detail, level);
      match detail {
        case Line(s) =>
          out := out + Bullet(s, level);
        case Nested(items) =>
          var inner := PrintDetails(items, level + 1);
          out := out + ("\n" + inner);
      }
      i := i + 1;
    }
    assert details[..i] == details;
  }

  /** The example text before indentation. `dump` stands for
      `json.dumps(item, indent=2)`. */
  function ExampleBody(details: JSON, schema: JSON, cmd: string, dump: JSON -> string): Result<string>
  {
    var d :- Resolve(details, schema);
    var has :- Json.Contains("examples", d);
    if !has then Ok(CodeExample + "\n" + cmd + ": <input>")
    else
      var v :- Subscript(d, "examples");
      var items :- Iter(v);
      var quoted := d.Obj? && Has(d.fields, "type") && Equal(Field(d.fields, "type"), Str("string"));
      Ok(Examples(items, |items|, cmd, quoted, dump))
  }

  /** The entries for `items`, the last ones of `count` examples. */
  function Examples(items: seq<JSON>, count: nat, cmd: string, quoted: bool, dump: JSON -> string): string
    requires |items| <= count
  {
    if |items| == 0 then ""
    else
      Examples(items[..|items| - 1], count, cmd, quoted, dump)
      + ExampleEntry(items[|items| - 1], |items| - 1, count, cmd, quoted, dump)
  }

  /** The entry for example number `idx` (from 0) of `count`. */
  function ExampleEntry(item: JSON, idx: nat, count: nat, cmd: string, quoted: bool, dump: JSON -> string): string
  {
    ExampleHeading(idx, count) + EntryLine(item, cmd, quoted, dump) + "\n"
  }

  /** The command line of one example: the text in double quotes for a string
      schema, the JSON dump otherwise. */
  function EntryLine(item: JSON, cmd: string, quoted: bool, dump: JSON -> string): string
  {
    if quoted then QuotedLine(cmd, ToStr(item)) else cmd + ": " + dump(item)
  }

  const CodeExample := "## Code Example"

  function ExampleHeading(idx: nat, count: nat): string
  {
    if count == 1 then CodeExample + "\n"
    else (if idx > 0 then "\n" else "") + CodeExample + " #" + NatToString(idx + 1) + "\n"
  }

  /** A string example: the command, then the text in double quotes. */
  function QuotedLine(cmd: string, text: string): string
  {
    cmd + ": \"" + text + "\""
  }

  lemma {:induction false} CodeExampleOneLine()
    ensures '\n' !in CodeExample
  {
  }

  lemma {:induction false} QuotedOneLine(cmd: string, text: string)
    requires '\n' !in cmd && '\n' !in text
    ensures '\n' !in QuotedLine(cmd, text)
  {
  }

  /** `cmd_example(details, schema, cmd)`: every line of the example text is
      the corresponding line of the unindented text prefixed with two spaces. */
  function CmdExample(details: JSON, schema: JSON, cmd: string, dump: JSON -> string): (r: Result<string>)
    ensures r.Ok? <==> ExampleBody(details, schema, cmd, dump).Ok?
    ensures r.Ok? ==>
              var lines := Split(r.value, '\n');
              var body := Split(ExampleBody(details, schema, cmd, dump).value, '\n');
              |lines| == |body| && forall k :: 0 <= k < |lines| ==> lines[k] == "  " + body[k]
  {
    var body :- ExampleBody(details, schema, cmd, dump);
    IndentRejoin(body);
    Ok(Join(Indented("  ", Split(body, '\n')), "\n"))
  }

  /** Indented lines joined again split back into the indented lines. */
  lemma {:induction false} IndentRejoin(body: string)
    ensures Split(Join(Indented("  ", Split(body, '\n')), "\n"), '\n') == Indented("  ", Split(body, '\n'))
  {
    var parts := Indented("  ", Split(body, '\n'));
    assert forall k :: 0 <= k < |parts| ==> '\n' !in parts[k] by {
      forall k | 0 <= k < |parts| ensures '\n' !in parts[k] {
        assert parts[k] == "  " + Split(body, '\n')[k];
      }
    }
    SplitJoin(parts, '\n');
  }

  /** Indenting a two-line text. */
  lemma {:induction false} IndentTwo(a: string, b: string)
    requires '\n' !in a && '\n' !in b
    ensures Join(Indented("  ", Split(a + "\n" + b, '\n')), "\n") == "  " + a + "\n  " + b
  {
    assert a + "\n" + b == a + ['\n'] + b;
    SplitPrefix(a, b, '\n');
    SplitNoSeparator(b, '\n');
    assert Split(a + "\n" + b, '\n') == [a, b];
    IndentPair(a, b);
  }

  lemma {:induction false} IndentPair(a: string, b: string)
    ensures Join(Indented("  ", [a, b]), "\n") == "  " + a + "\n  " + b
  {
    var parts := Indented("  ", [a, b]);
    assert |parts| == 2 && parts[0] == "  " + a && parts[1] == "  " + b;
    assert parts[1..] == ["  " + b];
    assert Join(parts, "\n") == parts[0] + "\n" + Join(parts[1..], "\n");
    assert "\n  " == "\n" + "  ";
  }

  /** A command without examples gets a placeholder example. */
  lemma {:induction false} NoExample(fields: Dict, schema: JSON, cmd: string, dump: JSON -> string)
    requires !Has(fields, "$ref") && !Has(fields, "examples") && '\n' !in cmd
    ensures CmdExample(Obj(fields), schema, cmd, dump) == Ok("  " + CodeExample + "\n  " + (cmd + ": <input>"))
  {
    var tail := cmd + ": <input>";
    assert '\n' !in tail;
    assert Resolve(Obj(fields), schema) == Ok(Obj(fields));
    assert CodeExample + "\n" + cmd + ": <input>" == CodeExample + "\n" + tail;
    IndentedBody(Obj(fields), schema, cmd, dump, CodeExample + "\n" + tail);
    CodeExampleOneLine();
    IndentTwo(CodeExample, tail);
  }

  /** A single string example is quoted under an unnumbered heading; the text
      ends with a newline, so the indented example ends with a line of two
      spaces. */
  lemma {:induction false} SingleStringExample(fields: Dict, schema: JSON, cmd: string, x: string, dump: JSON -> string)
    requires !Has(fields, "$ref") && Lookup(fields, "examples") == Some(Arr([Str(x)]))
    requires Lookup(fields, "type") == Some(Str("string")) && '\n' !in cmd && '\n' !in x
    ensures CmdExample(Obj(fields), schema, cmd, dump) ==
            Ok("  " + CodeExample + "\n  " + QuotedLine(cmd, x) + "\n  ")
  {
    var line := QuotedLine(cmd, x);
    QuotedOneLine(cmd, x);
    CodeExampleOneLine();
    SingleStringBody(fields, schema, cmd, x, dump);
    IndentedBody(Obj(fields), schema, cmd, dump, CodeExample + "\n" + (line + "\n" + ""));
    IndentThree(CodeExample, line, "");
    var out := "  " + CodeExample + "\n  " + line + "\n  ";
    assert out + "" == out;
  }

  lemma {:induction false} IndentedBody(details: JSON, schema: JSON, cmd: string, dump: JSON -> string, body: string)
    requires ExampleBody(details, schema, cmd, dump) == Ok(body)
    ensures CmdExample(details, schema, cmd, dump) == Ok(Join(Indented("  ", Split(body, '\n')), "\n"))
  {
  }

  lemma {:induction false} SingleStringBody(fields: Dict, schema: JSON, cmd: string, x: string, dump: JSON -> string)
    requires !Has(fields, "$ref") && Lookup(fields, "examples") == Some(Arr([Str(x)]))
    requires Lookup(fields, "type") == Some(Str("string"))
    ensures ExampleBody(Obj(fields), schema, cmd, dump) == Ok(CodeExample + "\n" + (QuotedLine(cmd, x) + "\n" + ""))
  {
    assert Resolve(Obj(fields), schema) == Ok(Obj(fields));
    SingleEntry(x, cmd, dump);
    assert Subscript(Obj(fields), "examples") == Ok(Arr([Str(x)]));
    assert Field(fields, "type") == Str("string");
    var line := QuotedLine(cmd, x) + "\n";
    assert line + "" == line;
    assert CodeExample + "\n" + line == CodeExample + "\n" + (QuotedLine(cmd, x) + "\n" + "");
  }

  lemma {:induction false} SingleEntry(x: string, cmd: string, dump: JSON -> string)
    ensures Examples([Str(x)], 1, cmd, true, dump) == CodeExample + "\n" + (QuotedLine(cmd, x) + "\n")
  {
    assert [Str(x)][..0] == [];
  }

  /** Indenting a three-line text. */
  lemma {:induction false} IndentThree(a: string, b: string, c: string)
    requires '\n' !in a && '\n' !in b && '\n' !in c
    ensures Join(Indented("  ", Split(a + "\n" + (b + "\n" + c), '\n')), "\n") == "  " + a + "\n  " + b + "\n  " + c
  {
    assert a + "\n" + (b + "\n" + c) == a + ['\n'] + (b + ['\n'] + c);
    SplitPrefix(b, c, '\n');
    SplitPrefix(a, b + ['\n'] + c, '\n');
    SplitNoSeparator(c, '\n');
    assert Split(a + "\n" + (b + "\n" + c), '\n') == [a] + [b, c];
    IndentTriple(a, b, c);
  }

  lemma {:induction false} IndentTriple(a: string, b: string, c: string)
    ensures Join(Indented("  ", [a] + [b, c]), "\n") == "  " + a + "\n  " + b + "\n  " + c
  {
    var parts := Indented("  ", [a] + [b, c]);
    assert |parts| == 3 && parts[0] == "  " + a;
    assert parts[1..] == Indented("  ", [b, c]);
    IndentPair(b, c);
    assert Join(parts, "\n") == parts[0] + "\n" + Join(parts[1..], "\n");
    assert "\n  " == "\n" + "  ";
  }

  /** Several examples (one-line each) are numbered from 1 in order: example
      `k` takes three lines, its heading `## Code Example #k+1`, its command line
      and a blank line, which separates it from the next heading or ends the text. */
  lemma {:induction false} NumberedExamples(items: seq<JSON>, count: nat, cmd: string, quoted: bool, dump: JSON -> string)
    requires 1 <= |items| <= count && count > 1
    requires forall k :: 0 <= k < |items| ==> '\n' !in EntryLine(items[k], cmd, quoted, dump)
    ensures EndsWith(Examples(items, count, cmd, quoted, dump), "\n")
    ensures NumberedLines(Split(Examples(items, count, cmd, quoted, dump), '\n'), items, cmd, quoted, dump)
  {
    var n := |items|;
    if n == 1 {
      NumberedFirst(items, count, cmd, quoted, dump);
    } else {
      var pre := items[..n - 1];
      forall k | 0 <= k < |pre| ensures '\n' !in EntryLine(pre[k], cmd, quoted, dump) {
        assert pre[k] == items[k];
      }
      NumberedExamples(pre, count, cmd, quoted, dump);
      NumberedStep(items, count, cmd, quoted, dump);
    }
  }

  /** One more example behind the text of the earlier ones. */
  lemma {:induction false} NumberedStep(items: seq<JSON>, count: nat, cmd: string, quoted: bool, dump: JSON -> string)
    requires 2 <= |items| <= count
    requires '\n' !in EntryLine(items[|items| - 1], cmd, quoted, dump)
    requires EndsWith(Examples(items[..|items| - 1], count, cmd, quoted, dump), "\n")
    requires NumberedLines(Split(Examples(items[..|items| - 1], count, cmd, quoted, dump), '\n'), items[..|items| - 1], cmd, quoted, dump)
    ensures EndsWith(Examples(items, count, cmd, quoted, dump), "\n")
    ensures NumberedLines(Split(Examples(items, count, cmd, quoted, dump), '\n'), items, cmd, quoted, dump)
  {
    var n := |items|;
    var entry := ExampleEntry(items[n - 1], n - 1, count, cmd, quoted, dump);
    var before := Examples(items[..n - 1], count, cmd, quoted, dump);
    assert Examples(items, count, cmd, quoted, dump) == before + entry;
    assert EndsWith(entry, "\n") && Split(entry, '\n') == ["", CodeExample + " #" + NatToString(n), EntryLine(items[n - 1], cmd, quoted, dump), ""] by {
      EntrySplit(items[n - 1], n - 1, count, cmd, quoted, dump);
    }
    NumberedAppend(before, entry, items, cmd, quoted, dump);
  }

  /** The first of several examples on its own: its heading numbered 1, its
      command line and a blank line. */
  lemma {:induction false} NumberedFirst(items: seq<JSON>, count: nat, cmd: string, quoted: bool, dump: JSON -> string)
    requires |items| == 1 && count > 1
    requires '\n' !in EntryLine(items[0], cmd, quoted, dump)
    ensures EndsWith(Examples(items, count, cmd, quoted, dump), "\n")
    ensures NumberedLines(Split(Examples(items, count, cmd, quoted, dump), '\n'), items, cmd, quoted, dump)
  {
    var text := Examples(items, count, cmd, quoted, dump);
    SingleText(items, count, cmd, quoted, dump);
    EntrySplit(items[0], 0, count, cmd, quoted, dump);
    OneEntryLines(Split(text, '\n'), items, cmd, quoted, dump);
  }

  /** The text of a single example is its entry. */
  lemma {:induction false} SingleText(items: seq<JSON>, count: nat, cmd: string, quoted: bool, dump: JSON -> string)
    requires |items| == 1 && count >= 1
    ensures Examples(items, count, cmd, quoted, dump) == ExampleEntry(items[0], 0, count, cmd, quoted, dump)
  {
    assert items[..0] == [];
    assert Examples(items[..0], count, cmd, quoted, dump) == "";
  }

  /** The three lines of a single example. */
  lemma {:induction false} OneEntryLines(lines: seq<string>, items: seq<JSON>, cmd: string, quoted: bool, dump: JSON -> string)
    requires |items| == 1
    requires lines == [CodeExample + " #" + NatToString(1), EntryLine(items[0], cmd, quoted, dump), ""]
    ensures NumberedLines(lines, items, cmd, quoted, dump)
  {
    assert NumberedEntry(lines, 0, items[0], cmd, quoted, dump);
  }

  /** Entry `k` of the example lines: the heading numbered `k + 1`, the command
      line for `item` and a blank line. */
  predicate NumberedEntry(lines: seq<string>, k: nat, item: JSON, cmd: string, quoted: bool, dump: JSON -> string)
  {
    && 3 * k + 2 < |lines|
    && lines[3 * k] == CodeExample + " #" + NatToString(k + 1)
    && lines[3 * k + 1] == EntryLine(item, cmd, quoted, dump)
    && lines[3 * k + 2] == ""
  }

  /** The lines of the examples `items`, three per example. */
  predicate NumberedLines(lines: seq<string>, items: seq<JSON>, cmd: string, quoted: bool, dump: JSON -> string)
  {
    |lines| == 3 * |items| && forall k :: 0 <= k < |items| ==> NumberedEntry(lines, k, items[k], cmd, quoted, dump)
  }

  /** Appending the text of one more example to the text of the others. */
  lemma {:induction false} NumberedAppend(before: string, entry: string, items: seq<JSON>, cmd: string, quoted: bool, dump: JSON -> string)
    requires |items| >= 2
    requires EndsWith(before, "\n") && NumberedLines(Split(before, '\n'), items[..|items| - 1], cmd, quoted, dump)
    requires EndsWith(entry, "\n")
    requires Split(entry, '\n') == ["", CodeExample + " #" + NatToString(|items|), EntryLine(items[|items| - 1], cmd, quoted, dump), ""]
    ensures EndsWith(before + entry, "\n") && NumberedLines(Split(before + entry, '\n'), items, cmd, quoted, dump)
  {
    AppendLines(before, entry);
    NumberedSnoc(Split(before, '\n'), Split(entry, '\n'), Split(before + entry, '\n'), items, cmd, quoted, dump);
  }

  /** Two newline-terminated texts, one after the other: the empty last piece
      of the first gives way to the pieces of the second. */
  lemma {:induction false} AppendLines(before: string, entry: string)
    requires EndsWith(before, "\n") && EndsWith(entry, "\n")
    ensures EndsWith(before + entry, "\n")
    ensures |Split(before, '\n')| >= 1
    ensures Split(before + entry, '\n') == Split(before, '\n')[..|Split(before, '\n')| - 1] + Split(entry, '\n')
  {
    LastNewline(before);
    SplitAppend(before, entry, '\n');
    EndsWithAppend(before, entry, "\n");
  }

  /** The lines of all but the last example, with their last blank line
      followed by the last example's blank line, heading and command line. */
  lemma {:induction false} NumberedSnoc(earlier: seq<string>, last: seq<string>, lines: seq<string>, items: seq<JSON>, cmd: string, quoted: bool,
                     dump: JSON -> string)
    requires |items| >= 2
    requires NumberedLines(earlier, items[..|items| - 1], cmd, quoted, dump)
    requires last == ["", CodeExample + " #" + NatToString(|items|), EntryLine(items[|items| - 1], cmd, quoted, dump), ""]
    requires lines == earlier[..|earlier| - 1] + last
    ensures NumberedLines(lines, items, cmd, quoted, dump)
  {
    var n := |items|;
    LinesStep(earlier, lines, n - 1, CodeExample + " #" + NatToString(n), EntryLine(items[n - 1], cmd, quoted, dump));
    var pre := items[..n - 1];
    forall k | 0 <= k < n
      ensures NumberedEntry(lines, k, items[k], cmd, quoted, dump)
    {
      if k < n - 1 {
        assert pre[k] == items[k];
        assert NumberedEntry(earlier, k, pre[k], cmd, quoted, dump);
        KeepEntry(earlier, lines, n - 1, k, items[k], cmd, quoted, dump);
      }
    }
  }

  /** An earlier example keeps its three lines when one more is appended. */
  lemma {:induction false} KeepEntry(earlier: seq<string>, lines: seq<string>, m: nat, k: nat, item: JSON, cmd: string, quoted: bool,
                  dump: JSON -> string)
    requires k < m && |earlier| == 3 * m && |lines| == 3 * m + 3
    requires forall j :: 0 <= j < 3 * m - 1 ==> lines[j] == earlier[j]
    requires lines[3 * m - 1] == ""
    requires NumberedEntry(earlier, k, item, cmd, quoted, dump)
    ensures NumberedEntry(lines, k, item, cmd, quoted, dump)
  {
    assert lines[3 * k] == earlier[3 * k] && lines[3 * k + 1] == earlier[3 * k + 1];
    assert k < m - 1 ==> lines[3 * k + 2] == earlier[3 * k + 2];
  }

  lemma {:induction false} LastNewline(s: string)
    requires EndsWith(s, "\n")
    ensures |s| > 0 && s[|s| - 1] == '\n'
  {
    assert s[|s| - 1..][0] == s[|s| - 1];
  }

  lemma {:induction false} EndsWithAppend(a: string, b: string, p: string)
    requires EndsWith(b, p)
    ensures EndsWith(a + b, p)
  {
    assert (a + b)[|a + b| - |p|..] == b[|b| - |p|..];
  }

  /** The lines of `m` entries followed by one more entry's. */
  lemma {:induction false} LinesStep(earlier: seq<string>, lines: seq<string>, m: nat, heading: string, line: string)
    requires m >= 1 && |earlier| == 3 * m
    requires lines == earlier[..3 * m - 1] + ["", heading, line, ""]
    ensures |lines| == 3 * m + 3
    ensures forall k :: 0 <= k < 3 * m - 1 ==> lines[k] == earlier[k]
    ensures lines[3 * m - 1] == "" && lines[3 * m] == heading && lines[3 * m + 1] == line && lines[3 * m + 2] == ""
  {
  }

  /** The lines of one entry among several: the first is its heading and its
      command line; every later one starts with a blank line. */
  lemma {:induction false} EntrySplit(item: JSON, idx: nat, count: nat, cmd: string, quoted: bool, dump: JSON -> string)
    requires count > 1 && '\n' !in EntryLine(item, cmd, quoted, dump)
    ensures var entry := ExampleEntry(item, idx, count, cmd, quoted, dump);
            var heading := CodeExample + " #" + NatToString(idx + 1);
            var line := EntryLine(item, cmd, quoted, dump);
            && EndsWith(entry, "\n")
            && (idx == 0 ==> Split(entry, '\n') == [heading, line, ""])
            && (idx > 0 ==> |entry| > 0 && entry[|entry| - 1] == '\n' && Split(entry, '\n') == ["", heading, line, ""])
  {
    var heading := CodeExample + " #" + NatToString(idx + 1);
    var line := EntryLine(item, cmd, quoted, dump);
    EntryText(item, idx, count, cmd, quoted, dump);
    HeadingOneLine(idx + 1);
    TwoLines(heading, line);
  }

  /** An entry among several: a blank line unless it is the first, the heading
      and the command line, each ended by a newline. */
  lemma {:induction false} EntryText(item: JSON, idx: nat, count: nat, cmd: string, quoted: bool, dump: JSON -> string)
    requires count > 1
    ensures var text := CodeExample + " #" + NatToString(idx + 1) + "\n" + EntryLine(item, cmd, quoted, dump) + "\n";
            ExampleEntry(item, idx, count, cmd, quoted, dump) == if idx == 0 then text else "\n" + text
  {
    var heading := CodeExample + " #" + NatToString(idx + 1);
    var line := EntryLine(item, cmd, quoted, dump);
    var blank: string := if idx > 0 then "\n" else "";
    assert ExampleHeading(idx, count) == blank + heading + "\n";
    Regroup(blank, heading, line);
  }

  lemma {:induction false} Regroup(blank: string, heading: string, line: string)
    ensures blank + heading + "\n" + line + "\n" == blank + (heading + "\n" + line + "\n")
    ensures "" + (heading + "\n" + line + "\n") == heading + "\n" + line + "\n"
  {
  }

  lemma {:induction false} HeadingOneLine(n: nat)
    ensures '\n' !in CodeExample + " #" + NatToString(n)
  {
    var digits := NatToString(n);
    assert forall k :: 0 <= k < |digits| ==> digits[k] != '\n';
  }

  /** Two lines, each ended by a newline, alone or after a blank line. */
  lemma {:induction false} TwoLines(a: string, b: string)
    requires '\n' !in a && '\n' !in b
    ensures var text := a + "\n" + b + "\n";
            && EndsWith(text, "\n") && Split(text, '\n') == [a, b, ""]
            && EndsWith("\n" + text, "\n") && Split("\n" + text, '\n') == ["", a, b, ""]
  {
    var text := a + "\n" + b + "\n";
    SplitPrefix(b, "", '\n');
    SplitPrefix(a, b + ['\n'] + "", '\n');
    assert text == a + ['\n'] + (b + ['\n'] + "");
    SplitPrefix("", text, '\n');
    assert "\n" + text == "" + ['\n'] + text;
    assert ("\n" + text)[|"\n" + text| - 1] == '\n';
  }

  /** The loop of `cmd_example` that gathers the entries. */
  method ExampleText(items: seq<JSON>, cmd: string, quoted: bool, dump: JSON -> string) returns (example: string)
    ensures example == Examples(items, |items|, cmd, quoted, dump)
  {
    example := "";
    var idx := 0;
    while idx < |items|
      invariant 0 <= idx <= |items|
      invariant example == Examples(items[..idx], |items|, cmd, quoted, dump)
    {
      var heading, line;
      if |items| == 1 {
        heading := CodeExample + "\n";
      } else {
        heading := (if idx > 0 then "\n" else "") + CodeExample + " #" + NatToString(idx + 1) + "\n";
      }
      if quoted {
        line := QuotedLine(cmd, ToStr(items[idx])) + "\n";
      } else {
        line := cmd + ": " + dump(items[idx]) + "\n";
      }
      ExamplesStep(items, idx, cmd, quoted, dump, example, heading, line);
      example := example + heading;
      example := example + line;
      idx := idx + 1;
    }
    assert items[..idx] == items;
  }

  /** One turn of the loop of `cmd_example`: appending the heading and the
      command line of example `idx` to the entries before it. */
  lemma {:induction false} ExamplesStep(items: seq<JSON>, idx: nat, cmd: string, quoted: bool, dump: JSON -> string,
                     example: string, heading: string, line: string)
    requires idx < |items| && example == Examples(items[..idx], |items|, cmd, quoted, dump)
    requires heading == ExampleHeading(idx, |items|)
    requires line == EntryLine(items[idx], cmd, quoted, dump) + "\n"
    ensures example + heading + line == Examples(items[..idx + 1], |items|, cmd, quoted, dump)
  {
    var entry := EntryLine(items[idx], cmd, quoted, dump);
    assert items[..idx + 1][..idx] == items[..idx] && items[..idx + 1][idx] == items[idx];
    assert Examples(items[..idx + 1], |items|, cmd, quoted, dump)
           == example + ExampleEntry(items[idx], idx, |items|, cmd, quoted, dump);
    assert ExampleEntry(items[idx], idx, |items|, cmd, quoted, dump) == heading + entry + "\n";
    AppendLine(example, heading, entry);
  }

  lemma {:induction false} AppendLine(before: string, heading: string, line: string)
    ensures before + heading + (line + "\n") == before + (heading + line + "\n")
  {
  }
}

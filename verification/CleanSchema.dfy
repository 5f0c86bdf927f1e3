/** Cleaning a JSON schema for Gemini function declarations
    (internal/provider/antigravity/translate.go:400-485): a recursive pass that deletes and
    rewrites map entries in whatever order the map is iterated. */
module CleanSchema {
  import opened Bytes

  type Fields = map<string, Json>

  const UNSUPPORTED: set<string> := {
    "additionalProperties", "$schema", "$id", "$ref", "$defs", "definitions", "strict", "const", "pattern",
    "format", "minLength", "maxLength", "minimum", "maximum", "exclusiveMinimum", "exclusiveMaximum", "minItems",
    "maxItems", "uniqueItems", "patternProperties", "unevaluatedProperties", "propertyNames", "contentMediaType",
    "contentEncoding"
  }

  // ---------------------------------------------------------------- what one object becomes

  predicate TypeName(t: Json) { t.Str? && t.s != "" && t.s != "null" }

  /** The first type of a union that is not null. */
  function FirstType(types: seq<Json>): Option<Json> {
    if types == [] then None
    else if FirstType(types[..|types| - 1]).Some? then FirstType(types[..|types| - 1])
    else if TypeName(types[|types| - 1]) then Some(types[|types| - 1])
    else None
  }

  predicate IsUnion(f: Fields) { "type" in f && f["type"].Arr? }

  function Unioned(f: Fields, types: seq<Json>): Fields {
    var g := f - {"type"};
    var nullable := if Str("null") in types then g["nullable" := Bool(true)] else g;
    match FirstType(types)
    case None => nullable
    case Some(t) => nullable["type" := t]
  }

  /** A union of types becomes its first type, null becomes nullable. */
  function Typed(f: Fields): Fields {
    if IsUnion(f) then Unioned(f, f["type"].items) else f
  }

  /** The names a properties map defines. */
  function Defined(f: Fields): set<string> {
    if "properties" in f && f["properties"].Obj? then f["properties"].fields.Keys else {}
  }

  function Names(items: seq<Json>, defined: set<string>): seq<Json> {
    if items == [] then []
    else
      var before, last := Names(items[..|items| - 1], defined), items[|items| - 1];
      if last.Str? && last.s in defined then before + [last] else before
  }

  /** A required list keeps the names that are defined, and goes when none is. */
  function Required(f: Fields): Fields {
    if "required" in f && f["required"].Arr? then
      var kept := Names(f["required"].items, Defined(f));
      if kept == [] then f - {"required"} else f["required" := Arr(kept)]
    else f
  }

  function Clean(v: Json): Json
    decreases v, 0
  {
    match v
    case Obj(f) =>
      var g := Typed(f - UNSUPPORTED);
      // An entry that union handling wrote is a scalar: cleaning leaves it alone.
      Obj(Required(map k | k in g :: if k in f && f[k] == g[k] then CleanField(k, f[k]) else g[k]))
    case Arr(items) => Arr(seq(|items|, i requires 0 <= i < |items| => Clean(items[i])))
    case _ => v
  }

  /** The entries of a properties map are schemas, the map itself is not. */
  function CleanField(key: string, child: Json): Json
    decreases child, 1
  {
    if key == "properties" && child.Obj? then Obj(map name | name in child.fields :: Clean(child.fields[name]))
    else Clean(child)
  }

  // ---------------------------------------------------------------- what Gemini accepts

  /** No unsupported key, no union type, and a required list, if any, that names defined
      properties and is not empty. */
  predicate FitObject(f: Fields) {
    && f.Keys !! UNSUPPORTED
    && !IsUnion(f)
    && ("required" in f && f["required"].Arr? ==>
          f["required"].items != []
          && forall i :: 0 <= i < |f["required"].items| ==>
               f["required"].items[i].Str? && f["required"].items[i].s in Defined(f))
  }

  /** Every schema object in the tree is fit. */
  predicate Fit(v: Json)
    decreases v, 0
  {
    match v
    case Obj(f) => FitObject(f) && forall k :: k in f ==> FitField(k, f[k])
    case Arr(items) => forall i :: 0 <= i < |items| ==> Fit(items[i])
    case _ => true
  }

  predicate FitField(key: string, child: Json)
    decreases child, 1
  {
    if key == "properties" && child.Obj? then forall name :: name in child.fields ==> Fit(child.fields[name])
    else Fit(child)
  }

  // ---------------------------------------------------------------- the result is fit

  lemma {:induction false} NamesMeaning(items: seq<Json>, defined: set<string>)
    ensures forall x :: x in Names(items, defined) <==> x in items && x.Str? && x.s in defined
    ensures |Names(items, defined)| <= |items|
    ensures Names(items, defined) == items <==> forall x :: x in items ==> x.Str? && x.s in defined
  {
    if items != [] {
      var front, last := items[..|items| - 1], items[|items| - 1];
      assert items == front + [last];
      NamesMeaning(front, defined);
      if Names(items, defined) == items {
        assert last.Str? && last.s in defined;
        assert (Names(front, defined) + [last])[..|front|] == front;
      }
    }
  }

  lemma {:induction false} FirstTypeMeaning(types: seq<Json>)
    ensures FirstType(types).None? <==> forall t :: t in types ==> !TypeName(t)
    ensures FirstType(types).Some? ==>
              exists i :: 0 <= i < |types| && types[i] == FirstType(types).value && TypeName(types[i])
                          && forall j :: 0 <= j < i ==> !TypeName(types[j])
  {
    if types != [] {
      var front := types[..|types| - 1];
      FirstTypeMeaning(front);
      assert types == front + [types[|types| - 1]];
    }
  }

  lemma TypedFits(f: Fields)
    requires f.Keys !! UNSUPPORTED
    ensures Typed(f).Keys !! UNSUPPORTED && !IsUnion(Typed(f))
    ensures !IsUnion(f) ==> Typed(f) == f
    ensures forall k :: k in Typed(f) && !(k in f && f[k] == Typed(f)[k]) ==> Typed(f)[k].Str? || Typed(f)[k].Bool?
    ensures "required" in Typed(f) ==> "required" in f && Typed(f)["required"] == f["required"]
  {
    if IsUnion(f) {
      FirstTypeMeaning(f["type"].items);
    }
  }

  /** The object before its required list is looked at. */
  function Children(f: Fields): Fields {
    var g := Typed(f - UNSUPPORTED);
    map k | k in g :: if k in f && f[k] == g[k] then CleanField(k, f[k]) else g[k]
  }

  lemma CleanIsChildren(f: Fields)
    ensures Clean(Obj(f)) == Obj(Required(Children(f)))
  {
  }

  /** Cleaning keeps the shape: objects, lists and scalars stay what they are. */
  lemma ShapeKept(key: string, v: Json)
    ensures Clean(v).Arr? <==> v.Arr?
    ensures Clean(v).Obj? <==> v.Obj?
    ensures CleanField(key, v).Arr? <==> v.Arr?
    ensures CleanField(key, v).Obj? <==> v.Obj?
    ensures v.Arr? ==> |Clean(v).items| == |v.items|
  {
  }

  lemma RequiredFits(f: Fields)
    requires f.Keys !! UNSUPPORTED && !IsUnion(f)
    ensures FitObject(Required(f))
    ensures forall k :: k in Required(f) && k != "required" ==> k in f && Required(f)[k] == f[k]
    ensures "required" in Required(f) && !Required(f)["required"].Arr? ==>
              "required" in f && Required(f)["required"] == f["required"]
    ensures FitObject(f) ==> Required(f) == f
  {
    if "required" in f && f["required"].Arr? {
      var items := f["required"].items;
      NamesMeaning(items, Defined(f));
      var kept := Names(items, Defined(f));
      forall i | 0 <= i < |kept|
        ensures kept[i].Str? && kept[i].s in Defined(f)
      {
        assert kept[i] in kept;
      }
      assert f["required" := Arr(items)] == f;
    }
  }

  lemma ChildrenMeaning(f: Fields)
    ensures Children(f).Keys !! UNSUPPORTED && !IsUnion(Children(f))
    ensures forall k :: k in Children(f) ==>
              (k in f && Children(f)[k] == CleanField(k, f[k])) || Children(f)[k].Str? || Children(f)[k].Bool?
  {
    var base := f - UNSUPPORTED;
    TypedFits(base);
    if "type" in Children(f) && "type" in f {
      ShapeKept("type", f["type"]);
    }
  }

  /** Everything cleaned is fit, however deep. */
  lemma {:induction false} CleanIsFit(v: Json)
    ensures Fit(Clean(v))
    decreases v, 0
  {
    match v
    case Obj(f) =>
      ChildrenMeaning(f);
      RequiredFits(Children(f));
      var r := Required(Children(f));
      forall k | k in r
        ensures FitField(k, r[k])
      {
        if k == "required" && r[k].Arr? {
          assert forall i :: 0 <= i < |r[k].items| ==> Fit(r[k].items[i]);
        } else if k in f && r[k] == CleanField(k, f[k]) {
          CleanFieldIsFit(k, f[k]);
        }
      }
      CleanIsChildren(f);
    case Arr(items) =>
      forall i | 0 <= i < |items|
        ensures Fit(Clean(items[i]))
      {
        CleanIsFit(items[i]);
      }
    case _ =>
  }

  lemma CleanFieldIsFit(key: string, child: Json)
    ensures FitField(key, CleanField(key, child))
    decreases child, 1
  {
    if key == "properties" && child.Obj? {
      forall name | name in child.fields
        ensures Fit(Clean(child.fields[name]))
      {
        CleanIsFit(child.fields[name]);
      }
    } else {
      CleanIsFit(child);
    }
  }

  // ---------------------------------------------------------------- fit schemas are the fixed points

  /** What is fit is left alone. */
  lemma {:induction false} FitIsClean(v: Json)
    requires Fit(v)
    ensures Clean(v) == v
    decreases v, 0
  {
    match v
    case Obj(f) =>
      assert f - UNSUPPORTED == f;
      TypedFits(f);
      forall k | k in f
        ensures CleanField(k, f[k]) == f[k]
      {
        FitFieldIsClean(k, f[k]);
      }
      assert Children(f) == f;
      RequiredFits(f);
      CleanIsChildren(f);
    case Arr(items) =>
      forall i | 0 <= i < |items|
        ensures Clean(items[i]) == items[i]
      {
        FitIsClean(items[i]);
      }
      assert Clean(v).items == items;
    case _ =>
  }

  lemma FitFieldIsClean(key: string, child: Json)
    requires FitField(key, child)
    ensures CleanField(key, child) == child
    decreases child, 1
  {
    if key == "properties" && child.Obj? {
      forall name | name in child.fields
        ensures Clean(child.fields[name]) == child.fields[name]
      {
        FitIsClean(child.fields[name]);
      }
      assert CleanField(key, child).fields == child.fields;
    } else {
      FitIsClean(child);
    }
  }

  /** Cleaning changes nothing exactly on fit schemas, and so cleaning twice is cleaning once. */
  lemma CleanIsIdempotent(v: Json)
    ensures Clean(v) == v <==> Fit(v)
    ensures Clean(Clean(v)) == Clean(v)
  {
    CleanIsFit(v);
    FitIsClean(Clean(v));
    if Fit(v) {
      FitIsClean(v);
    }
  }

  // ---------------------------------------------------------------- what is left unchanged

  /** w is v with keywords taken out, and nothing else lost: properties maps have the same names,
      lists the same length, scalars are the same. */
  predicate Kept(v: Json, w: Json)
    decreases v, 0
  {
    match v
    case Obj(f) =>
      && w.Obj?
      && w.fields.Keys <= (f.Keys - UNSUPPORTED) + {"nullable"}
      && (forall k :: k in f && k !in UNSUPPORTED && !Rewritten(k, f, w.fields) ==> k in w.fields)
      && (forall k :: k in f && k in w.fields && !Rewritten(k, f, w.fields) ==> KeptField(k, f[k], w.fields[k]))
    case Arr(items) =>
      w.Arr? && |w.items| == |items| && forall i :: 0 <= i < |items| ==> Kept(items[i], w.items[i])
    case _ => w == v
  }

  predicate KeptField(key: string, child: Json, w: Json)
    decreases child, 1
  {
    if key == "properties" && child.Obj? then
      && w.Obj? && w.fields.Keys == child.fields.Keys
      && forall name :: name in child.fields && name in w.fields ==> Kept(child.fields[name], w.fields[name])
    else Kept(child, w)
  }

  /** The entries with a rule of their own: a union's type, its nullable, a required list. */
  predicate Rewritten(key: string, f: Fields, w: Fields) {
    || (key == "type" && IsUnion(f))
    || (key == "nullable" && IsUnion(f) && Str("null") in f["type"].items)
    || (key == "required" && key in f && f[key].Arr?)
  }

  lemma ChildrenKept(f: Fields, key: string)
    ensures key in Required(Children(f)) ==> key in f - UNSUPPORTED || key == "nullable"
    ensures key in f && key !in UNSUPPORTED && !Rewritten(key, f, Required(Children(f))) ==> key in Required(Children(f))
    ensures key in f && key in Required(Children(f)) && !Rewritten(key, f, Required(Children(f))) ==>
              Required(Children(f))[key] == CleanField(key, f[key])
  {
    var base := f - UNSUPPORTED;
    TypedFits(base);
    RequiredKeeps(Children(f), key);
    if key in f {
      ShapeKept(key, f[key]);
    }
    if key in base && !Rewritten(key, f, Required(Children(f))) {
      assert key in Typed(base) && Typed(base)[key] == f[key];
    }
  }

  lemma RequiredKeeps(f: Fields, key: string)
    ensures key in Required(f) ==> key in f
    ensures key in f && key != "required" ==> key in Required(f) && Required(f)[key] == f[key]
    ensures key in f && !f[key].Arr? ==> key in Required(f) && Required(f)[key] == f[key]
  {
  }

  /** Cleaning takes out keywords and nothing else; names of properties all stay, also those
      that read like an unsupported keyword. */
  lemma {:induction false} CleanKeeps(v: Json)
    ensures Kept(v, Clean(v))
    decreases v, 0
  {
    match v
    case Obj(f) =>
      var r := Required(Children(f));
      CleanIsChildren(f);
      forall key
        ensures key in r ==> key in f - UNSUPPORTED || key == "nullable"
        ensures key in f && key !in UNSUPPORTED && !Rewritten(key, f, r) ==> key in r
      {
        ChildrenKept(f, key);
      }
      forall k | k in f && k in r && !Rewritten(k, f, r)
        ensures KeptField(k, f[k], r[k])
      {
        ChildrenKept(f, k);
        CleanFieldKeeps(k, f[k]);
      }
    case Arr(items) =>
      forall i | 0 <= i < |items|
        ensures Kept(items[i], Clean(items[i]))
      {
        CleanKeeps(items[i]);
      }
    case _ =>
  }

  lemma CleanFieldKeeps(key: string, child: Json)
    ensures KeptField(key, child, CleanField(key, child))
    decreases child, 1
  {
    if key == "properties" && child.Obj? {
      forall name | name in child.fields
        ensures Kept(child.fields[name], Clean(child.fields[name]))
      {
        CleanKeeps(child.fields[name]);
      }
    } else {
      CleanKeeps(child);
    }
  }

  /** The entries with a rule of their own: a union leaves its first type that is not null, and
      sets nullable when null is one of its types. */
  lemma UnionMeaning(f: Fields)
    requires IsUnion(f)
    ensures var r, types := Clean(Obj(f)).fields, f["type"].items;
            && ("type" in r <==> exists t :: t in types && TypeName(t))
            && ("type" in r ==> exists i :: 0 <= i < |types| && types[i] == r["type"] && TypeName(types[i])
                                            && forall j :: 0 <= j < i ==> !TypeName(types[j]))
            && (Str("null") in types ==> "nullable" in r && r["nullable"] == Bool(true))
  {
    var base := f - UNSUPPORTED;
    TypedFits(base);
    FirstTypeMeaning(f["type"].items);
    CleanIsChildren(f);
    assert base["type"] == f["type"];
    RequiredKeeps(Children(f), "type");
    RequiredKeeps(Children(f), "nullable");
    assert "type" in f && f["type"].Arr?;
    if "type" in Typed(base) {
      assert Typed(base)["type"].Str?;
      assert Children(f)["type"] == Typed(base)["type"];
    }
    if Str("null") in f["type"].items {
      assert Typed(base)["nullable"] == Bool(true);
      assert Children(f)["nullable"] == Bool(true);
    }
  }

  /** A required list keeps exactly the names the properties map defines, in their order. */
  lemma RequiredMeaning(f: Fields)
    requires "required" in f && f["required"].Arr?
    ensures var r, kept := Clean(Obj(f)).fields, Names(f["required"].items, Defined(f));
            && ("required" in r <==> kept != [])
            && ("required" in r ==> r["required"] == Arr(kept))
  {
    var base := f - UNSUPPORTED;
    TypedFits(base);
    CleanIsChildren(f);
    assert base["required"] == f["required"];
    assert Typed(base)["required"] == f["required"];
    var items := f["required"].items;
    assert Children(f)["required"] == CleanField("required", f["required"]) == Clean(f["required"]);
    DefinedKept(f);
    NamesOfClean(items, Clean(f["required"]).items, Defined(f));
  }

  lemma DefinedKept(f: Fields)
    ensures Defined(Children(f)) == Defined(f)
  {
    var base := f - UNSUPPORTED;
    TypedFits(base);
    if "properties" in f {
      assert "properties" in base && Typed(base)["properties"] == f["properties"];
      assert Children(f)["properties"] == CleanField("properties", f["properties"]);
      ShapeKept("properties", f["properties"]);
    }
  }

  lemma {:induction false} NamesOfClean(items: seq<Json>, cleaned: seq<Json>, defined: set<string>)
    requires |cleaned| == |items| && forall i :: 0 <= i < |items| ==> cleaned[i] == Clean(items[i])
    ensures Names(cleaned, defined) == Names(items, defined)
  {
    if items != [] {
      NamesOfClean(items[..|items| - 1], cleaned[..|items| - 1], defined);
      ShapeKept("", items[|items| - 1]);
    }
  }

  // ---------------------------------------------------------------- the pass itself

  /** The pass as it runs: entries are deleted and rewritten one by one, and the loops over maps
      take their entries in any order. */
  method CleanSchema(v: Json) returns (r: Json)
    ensures r == Clean(v)
    decreases v, 1
  {
    match v
    case Obj(f) =>
      var value := DropUnsupported(f);
      value := ResolveUnion(value);
      value := CleanEntries(f, value);
      value := TrimRequired(value);
      r := Obj(value);
    case Arr(items) =>
      var value := items;
      for i := 0 to |items|
        invariant |value| == |items|
        invariant forall j :: 0 <= j < i ==> value[j] == Clean(items[j])
        invariant forall j :: i <= j < |items| ==> value[j] == items[j]
      {
        var child := CleanSchema(items[i]);
        value := value[i := child];
      }
      assert value == Clean(v).items;
      r := Arr(value);
    case _ => r := v;
  }

  method DropUnsupported(f: Fields) returns (value: Fields)
    ensures value == f - UNSUPPORTED
  {
    value := f;
    var todo := UNSUPPORTED;
    while todo != {}
      invariant todo <= UNSUPPORTED && value == f - (UNSUPPORTED - todo)
      decreases todo
    {
      var key :| key in todo;
      value := value - {key};
      todo := todo - {key};
    }
  }

  /** One more type of the union. */
  lemma UnionStep(f: Fields, types: seq<Json>, t: Json, name: string)
    requires name == if t.Str? then t.s else ""
    ensures var was, next := Unioned(f, types), Unioned(f, types + [t]);
            if name == "null" then next == was["nullable" := Bool(true)]
            else if "type" !in was && name != "" then next == was["type" := Str(name)]
            else next == was
  {
    var all := types + [t];
    assert all[..|types|] == types && all[|types|] == t;
    assert Str("null") in all <==> Str("null") in types || t == Str("null");
    assert FirstType(types).None? <==> "type" !in Unioned(f, types);
    assert TypeName(t) <==> name != "" && name != "null";
    assert TypeName(t) ==> t == Str(name);
    FirstTypeSnoc(types, t);
  }

  lemma FirstTypeSnoc(types: seq<Json>, t: Json)
    ensures FirstType(types + [t]) == if FirstType(types).Some? then FirstType(types) else if TypeName(t) then Some(t) else None
  {
    var all := types + [t];
    assert all[..|all| - 1] == types && all[|all| - 1] == t;
  }

  method ResolveUnion(f: Fields) returns (value: Fields)
    ensures value == Typed(f)
  {
    if !("type" in f && f["type"].Arr?) {
      return f;
    }
    var types := f["type"].items;
    value := f - {"type"};
    for i := 0 to |types|
      invariant value == Unioned(f, types[..i])
    {
      assert types[..i + 1] == types[..i] + [types[i]];
      var name := if types[i].Str? then types[i].s else "";
      UnionStep(f, types[..i], types[i], name);
      if name == "null" {
        value := value["nullable" := Bool(true)];
      } else if "type" !in value && name != "" {
        value := value["type" := Str(name)];
      }
    }
    assert types[..|types|] == types;
  }

  /** Every entry is cleaned once, whatever the order. */
  method CleanEntries(f: Fields, was: Fields) returns (value: Fields)
    requires was == Typed(f - UNSUPPORTED)
    ensures value == Children(f)
    decreases Obj(f), 0
  {
    TypedFits(f - UNSUPPORTED);
    value := was;
    var todo := value.Keys;
    while todo != {}
      invariant todo <= was.Keys == value.Keys
      invariant forall k :: k in todo ==> value[k] == was[k]
      invariant forall k :: k in was && k !in todo ==> value[k] == Children(f)[k]
      decreases todo
    {
      var key :| key in todo;
      if key in f && f[key] == value[key] {
        var child := CleanEntry(key, f[key]);
        value := value[key := child];
      }
      // Otherwise the entry is the scalar a union left: cleaning returns it as it is.
      todo := todo - {key};
    }
  }

  method CleanEntry(key: string, child: Json) returns (r: Json)
    ensures r == CleanField(key, child)
    decreases child, 2
  {
    if key == "properties" && child.Obj? {
      var properties := child.fields;
      var todo := properties.Keys;
      while todo != {}
        invariant todo <= properties.Keys == child.fields.Keys
        invariant forall name :: name in todo ==> properties[name] == child.fields[name]
        invariant forall name :: name in properties && name !in todo ==> properties[name] == Clean(child.fields[name])
        decreases todo
      {
        var name :| name in todo;
        var schema := CleanSchema(child.fields[name]);
        properties := properties[name := schema];
        todo := todo - {name};
      }
      assert properties == CleanField(key, child).fields;
      r := Obj(properties);
    } else {
      r := CleanSchema(child);
    }
  }

  method TrimRequired(f: Fields) returns (value: Fields)
    ensures value == Required(f)
  {
    value := f;
    if !("required" in f && f["required"].Arr?) {
      return;
    }
    var required := f["required"].items;
    var kept: seq<Json> := [];
    for i := 0 to |required|
      invariant kept == Names(required[..i], Defined(f))
    {
      assert required[..i + 1][..i] == required[..i];
      if required[i].Str? && "properties" in f && f["properties"].Obj? && required[i].s in f["properties"].fields {
        kept := kept + [required[i]];
      }
    }
    assert required[..|required|] == required;
    value := if |kept| == 0 then f - {"required"} else f["required" := Arr(kept)];
  }
}

/** `native_format_schema`: a JSON Schema without the keywords native structured output rejects. */
module FormatSchema {
  import opened Basics

  datatype Json =
    | Null | Bool(b: bool) | Int(n: int) | Real(r: real) | String(s: string) | Arr(items: Items) | Obj(fields: Fields)

  datatype Items = End | Item(head: Json, tail: Items)

  /** The entries of an object, in order. */
  datatype Fields = NoField | Field(key: string, value: Json, rest: Fields)

  function Get(f: Fields, key: string): (r: Option<Json>)
    ensures r.Some? ==> r.value < f
  {
    if f.NoField? then None else if f.key == key then Some(f.value) else Get(f.rest, key)
  }

  predicate Holds(items: Items, v: Json) {
    items.Item? && (items.head == v || Holds(items.tail, v))
  }

  function Count(items: Items): nat {
    if items.End? then 0 else 1 + Count(items.tail)
  }

  predicate Scalar(v: Json) {
    !v.Arr? && !v.Obj?
  }

  predicate Scalars(items: Items) {
    items.Item? ==> Scalar(items.head) && Scalars(items.tail)
  }

  /** The elements in order. */
  function Listed(items: Items): seq<Json> {
    if items.End? then [] else [items.head] + Listed(items.tail)
  }

  lemma {:induction false} ListedIs(items: Items, v: Json)
    ensures Holds(items, v) <==> v in Listed(items)
    ensures Count(items) == |Listed(items)|
    ensures Scalars(items) <==> forall x :: x in Listed(items) ==> !x.Arr? && !x.Obj?
  {
    if items.Item? {
      ListedIs(items.tail, v);
      assert forall x :: x in Listed(items) <==> x == items.head || x in Listed(items.tail);
    }
  }

  // ----- the transformation -----

  /** The node declares the type, alone or in a list. */
  predicate HasKind(f: Fields, kind: string) {
    var declared := Get(f, "type");
    && declared.Some?
    && (declared.value == String(kind) || (declared.value.Arr? && Holds(declared.value.items, String(kind))))
  }

  predicate NumericBound(key: string) {
    key == "minimum" || key == "maximum" || key == "exclusiveMinimum" || key == "exclusiveMaximum"
        || key == "multipleOf"
  }

  /** The keyword is rejected beside the types declared. */
  predicate Rejected(f: Fields, key: string) {
    || (NumericBound(key) && (HasKind(f, "integer") || HasKind(f, "number")))
    || ((key == "maxItems" || key == "uniqueItems") && HasKind(f, "array"))
    || ((key == "minProperties" || key == "maxProperties") && HasKind(f, "object"))
  }

  predicate TypeList(f: Fields) {
    Get(f, "type").Some? && Get(f, "type").value.Arr?
  }

  predicate Dropped(f: Fields, key: string) {
    Rejected(f, key) || (key == "type" && TypeList(f) && Get(f, "enum").Some?)
  }

  /** Native takes `minItems` 0 or 1 only. */
  function Capped(f: Fields, key: string, value: Json): Json {
    if key == "minItems" && HasKind(f, "array") && value.Int? && value.n > 1 then Int(1) else value
  }

  function Stripped(n: Json): Json
    decreases n
  {
    match n
    case Arr(items) => Arr(StrippedItems(items))
    case Obj(fields) => Obj(StrippedFields(fields, fields))
    case _ => n
  }

  function StrippedItems(items: Items): Items
    decreases items
  {
    if items.End? then End else Item(Stripped(items.head), StrippedItems(items.tail))
  }

  /** The entries from `f` on of the node with entries `all`. */
  function StrippedFields(f: Fields, all: Fields): Fields
    decreases f
  {
    if f.NoField? then NoField
    else if Dropped(all, f.key) then StrippedFields(f.rest, all)
    else Field(f.key, Capped(all, f.key, Stripped(f.value)), StrippedFields(f.rest, all))
  }

  // ----- what native accepts -----

  /** Nowhere a rejected keyword, an `enum` beside a `type` list, or a `minItems` above 1 for an array. */
  predicate Accepted(n: Json)
    decreases n
  {
    match n
    case Arr(items) => AcceptedItems(items)
    case Obj(fields) => AcceptedFields(fields, fields) && !(TypeList(fields) && Get(fields, "enum").Some?)
    case _ => true
  }

  predicate AcceptedItems(items: Items)
    decreases items
  {
    items.Item? ==> Accepted(items.head) && AcceptedItems(items.tail)
  }

  predicate AcceptedFields(f: Fields, all: Fields)
    decreases f
  {
    f.Field? ==>
      && Accepted(f.value) && AcceptedFields(f.rest, all) && !Rejected(all, f.key)
      && (f.key == "minItems" && HasKind(all, "array") && f.value.Int? ==> f.value.n <= 1)
  }

  lemma {:induction false} GetStripped(f: Fields, all: Fields, key: string)
    ensures Get(StrippedFields(f, all), key)
         == if Dropped(all, key) || Get(f, key).None? then None else Some(Capped(all, key, Stripped(Get(f, key).value)))
  {
    if f.Field? {
      GetStripped(f.rest, all, key);
    }
  }

  lemma {:induction false} HoldsStripped(items: Items, v: Json)
    requires v.String?
    ensures Holds(StrippedItems(items), v) <==> Holds(items, v)
  {
    if items.Item? {
      HoldsStripped(items.tail, v);
    }
  }

  /** The stripped node declares the types it declared, unless it lost its type list to an `enum`. */
  lemma KindsStay(f: Fields, kind: string)
    ensures var out := StrippedFields(f, f);
            && HasKind(out, kind) == (HasKind(f, kind) && !(TypeList(f) && Get(f, "enum").Some?))
            && (TypeList(out) <==> TypeList(f) && Get(f, "enum").None?)
  {
    GetStripped(f, f, "type");
    if TypeList(f) {
      HoldsStripped(Get(f, "type").value.items, String(kind));
    }
  }

  /** What native rejects is rejected still, or the type that made it so is gone: so a second look drops nothing. */
  lemma AllKindsStay(f: Fields)
    ensures forall key :: Rejected(StrippedFields(f, f), key) ==> Rejected(f, key)
    ensures HasKind(StrippedFields(f, f), "array") ==> HasKind(f, "array")
    ensures TypeList(StrippedFields(f, f)) ==> Get(StrippedFields(f, f), "enum").None?
  {
    KindsStay(f, "integer");
    KindsStay(f, "number");
    KindsStay(f, "array");
    KindsStay(f, "object");
    GetStripped(f, f, "enum");
  }

  /** The result is something native accepts, whatever the input. */
  lemma {:induction false} StrippedAccepted(n: Json)
    ensures Accepted(Stripped(n))
    decreases n
  {
    match n
    case Arr(items) => StrippedItemsAccepted(items);
    case Obj(fields) =>
      AllKindsStay(fields);
      StrippedFieldsAccepted(fields, fields, StrippedFields(fields, fields));
    case _ =>
  }

  lemma {:induction false} StrippedItemsAccepted(items: Items)
    ensures AcceptedItems(StrippedItems(items))
    decreases items
  {
    if items.Item? {
      StrippedAccepted(items.head);
      StrippedItemsAccepted(items.tail);
    }
  }

  lemma {:induction false} StrippedFieldsAccepted(f: Fields, all: Fields, out: Fields)
    requires forall key :: Rejected(out, key) ==> Rejected(all, key)
    requires HasKind(out, "array") ==> HasKind(all, "array")
    ensures AcceptedFields(StrippedFields(f, all), out)
    decreases f
  {
    if f.Field? {
      StrippedAccepted(f.value);
      StrippedFieldsAccepted(f.rest, all, out);
    }
  }

  /** What native accepts is left as it is. */
  lemma {:induction false} AcceptedStays(n: Json)
    requires Accepted(n)
    ensures Stripped(n) == n
    decreases n
  {
    match n
    case Arr(items) => AcceptedItemsStay(items);
    case Obj(fields) => AcceptedFieldsStay(fields, fields);
    case _ =>
  }

  lemma {:induction false} AcceptedItemsStay(items: Items)
    requires AcceptedItems(items)
    ensures StrippedItems(items) == items
    decreases items
  {
    if items.Item? {
      AcceptedStays(items.head);
      AcceptedItemsStay(items.tail);
    }
  }

  lemma {:induction false} AcceptedFieldsStay(f: Fields, all: Fields)
    requires AcceptedFields(f, all) && !(TypeList(all) && Get(all, "enum").Some?)
    ensures StrippedFields(f, all) == f
    decreases f
  {
    if f.Field? {
      AcceptedStays(f.value);
      AcceptedFieldsStay(f.rest, all);
    }
  }

  /** Stripping is exactly what native needs: it changes nothing that is accepted, and once is enough. */
  lemma StrippedOnce(n: Json)
    ensures Stripped(Stripped(n)) == Stripped(n)
    ensures Stripped(n) == n <==> Accepted(n)
  {
    StrippedAccepted(n);
    AcceptedStays(Stripped(n));
    if Accepted(n) {
      AcceptedStays(n);
    }
  }

  /** The node declares the type: its "type" is that text, or a list with it. */
  ghost predicate Declares(f: Fields, kind: string) {
    Get(f, "type") == Some(String(kind))
    || exists items :: Get(f, "type") == Some(Arr(items)) && Holds(items, String(kind))
  }

  /** The keywords native rejects beside one type. */
  function RejectedBeside(kind: string): set<string> {
    if kind == "integer" || kind == "number" then
      {"minimum", "maximum", "exclusiveMinimum", "exclusiveMaximum", "multipleOf"}
    else if kind == "array" then {"maxItems", "uniqueItems"}
    else if kind == "object" then {"minProperties", "maxProperties"}
    else {}
  }

  /**
    What is under a key of the stripped node: nothing, exactly when nothing was, when the node declares a type beside
    which the key is rejected, or when it is the type list of an `enum`; 1 for a larger `minItems` of an array; else
    what was, stripped.
   */
  lemma StrippedAt(f: Fields, key: string)
    ensures var was, now := Get(f, key), Get(StrippedFields(f, f), key);
            && (now.None? <==>
                  || was.None?
                  || (exists kind :: Declares(f, kind) && key in RejectedBeside(kind))
                  || (key == "type" && was.value.Arr? && Get(f, "enum").Some?))
            && (now.Some? ==>
                  now.value == if key == "minItems" && Declares(f, "array") && was.value.Int? && was.value.n > 1
                               then Int(1) else Stripped(was.value))
  {
    GetStripped(f, f, key);
    forall kind ensures HasKind(f, kind) <==> Declares(f, kind) {
      if Get(f, "type").Some? && Get(f, "type").value.Arr? {
        assert Get(f, "type") == Some(Arr(Get(f, "type").value.items));
      }
    }
    hide Declares, HasKind, Stripped, Get, StrippedFields;
    assert Rejected(f, key) <==> exists kind :: Declares(f, kind) && key in RejectedBeside(kind) by {
      RejectedIs(f, key);
    }
  }

  lemma RejectedIs(f: Fields, key: string)
    requires forall kind :: HasKind(f, kind) <==> Declares(f, kind)
    ensures Rejected(f, key) <==> exists kind :: Declares(f, kind) && key in RejectedBeside(kind)
  {
    hide Declares, HasKind;
    assert key in RejectedBeside("integer") <==> NumericBound(key);
    assert key in RejectedBeside("number") <==> NumericBound(key);
    assert key in RejectedBeside("array") <==> key == "maxItems" || key == "uniqueItems";
    assert key in RejectedBeside("object") <==> key == "minProperties" || key == "maxProperties";
    if exists kind :: Declares(f, kind) && key in RejectedBeside(kind) {
      var kind :| Declares(f, kind) && key in RejectedBeside(kind);
      assert kind == "integer" || kind == "number" || kind == "array" || kind == "object";
    }
  }

  /** The entries that stay keep their order. */
  lemma {:induction false} StrippedKeys(f: Fields, all: Fields)
    ensures StrippedFields(f, all).Field? <==> exists key :: Get(f, key).Some? && !Dropped(all, key)
    ensures f.Field? && !Dropped(all, f.key) ==>
              StrippedFields(f, all).key == f.key && StrippedFields(f, all).rest == StrippedFields(f.rest, all)
    ensures f.Field? && Dropped(all, f.key) ==> StrippedFields(f, all) == StrippedFields(f.rest, all)
  {
    if f.Field? {
      StrippedKeys(f.rest, all);
      if exists key :: Get(f.rest, key).Some? && !Dropped(all, key) {
        var key :| Get(f.rest, key).Some? && !Dropped(all, key);
        assert Get(f, key).Some?;
      }
      if !Dropped(all, f.key) {
        assert Get(f, f.key).Some?;
      }
    }
  }

  // ----- what an instance must meet -----

  /**
    The meaning of what stripping does not look into: every assertion keyword with a scalar value (numeric, size, string
    and format bounds), and the patterns of `patternProperties`.
   */
  datatype Meaning = Meaning(scalar: (string, Json, Json) -> bool, matches: (string, string) -> bool)

  predicate IsType(v: Json, t: string) {
    || (t == "null" && v.Null?) || (t == "boolean" && v.Bool?) || (t == "string" && v.String?)
    || (t == "array" && v.Arr?) || (t == "object" && v.Obj?)
    || (t == "integer" && (v.Int? || (v.Real? && v.r == v.r.Floor as real))) || (t == "number" && (v.Int? || v.Real?))
  }

  predicate OneOfTypes(types: Items, v: Json) {
    types.Item? && ((types.head.String? && IsType(v, types.head.s)) || OneOfTypes(types.tail, v))
  }

  predicate Present(names: Items, v: Fields) {
    names.Item? ==> (names.head.String? ==> Get(v, names.head.s).Some?) && Present(names.tail, v)
  }

  /** `dependentRequired`: a name that is there brings others with it. */
  predicate PresentWith(table: Fields, v: Fields) {
    table.Field? ==>
      && (Get(v, table.key).Some? && table.value.Arr? ==> Present(table.value.items, v))
      && PresentWith(table.rest, v)
  }

  /** The entries of the object under one key of a node. */
  function Table(f: Fields, key: string): (r: Fields) {
    var t := Get(f, key);
    if t.Some? && t.value.Obj? then t.value.fields else NoField
  }

  /** The integer under a key, if there is one. */
  function IntAt(f: Fields, key: string): Option<int> {
    var n := Get(f, key);
    if n.Some? && n.value.Int? then Some(n.value.n) else None
  }

  function PrefixLength(f: Fields): nat {
    var p := Get(f, "prefixItems");
    if p.Some? && p.value.Arr? then Count(p.value.items) else 0
  }

  function Skip(items: Items, n: nat): Items {
    if n == 0 || items.End? then items else Skip(items.tail, n - 1)
  }

  predicate AnyMatches(x: Meaning, patterns: Fields, name: string) {
    patterns.Field? && (x.matches(patterns.key, name) || AnyMatches(x, patterns.rest, name))
  }

  const DEFS := "#/$defs/"

  /** What a reference names: the whole document, or one of its definitions. */
  function Target(root: Json, reference: Json): Option<Json> {
    if !root.Obj? || !reference.String? then None
    else if reference.s == "#" then Some(root)
    else if |reference.s| > |DEFS| && reference.s[..|DEFS|] == DEFS then
      Get(Table(root.fields, "$defs"), reference.s[|DEFS|..])
    else None
  }

  /** The keywords looked into; `Beside` are those read together with another keyword of the node. */
  datatype Keyword =
    | Type | Enum | Const | MinItems | Required | DependentRequired
    | Properties | PatternProperties | AdditionalProperties | PropertyNames | DependentSchemas
    | EachItem | PrefixItems | Contains | AllOf | AnyOf | OneOf | Not | Reference | Beside | Other

  function KeywordOf(key: string): (r: Keyword)
    ensures r.MinItems? <==> key == "minItems"
  {
    if key == "type" then Type
    else if key == "enum" then Enum
    else if key == "const" then Const
    else if key == "minItems" then MinItems
    else if key == "required" then Required
    else if key == "dependentRequired" then DependentRequired
    else if key == "properties" then Properties
    else if key == "patternProperties" then PatternProperties
    else if key == "additionalProperties" then AdditionalProperties
    else if key == "propertyNames" then PropertyNames
    else if key == "dependentSchemas" then DependentSchemas
    else if key == "items" then EachItem
    else if key == "prefixItems" then PrefixItems
    else if key == "contains" then Contains
    else if key == "allOf" then AllOf
    else if key == "anyOf" then AnyOf
    else if key == "oneOf" then OneOf
    else if key == "not" then Not
    else if key == "$ref" then Reference
    else if key in ["if", "then", "else", "minContains", "maxContains", "$defs"] then Beside
    else Other
  }

  /** A document, and how the rest of its keywords is read. */
  datatype Doc = Doc(x: Meaning, root: Json)

  /** The instance is valid against the schema, where references are followed at most `hops` deep. */
  predicate Valid(d: Doc, hops: nat, s: Json, v: Json)
    decreases hops, s, 1
  {
    match s
    case Bool(b) => b
    case Obj(f) =>
      var test, yes, no := Get(f, "if"), Get(f, "then"), Get(f, "else");
      && ValidFields(d, hops, f, f, v)
      && (test.Some? ==>
            if Valid(d, hops, test.value, v) then yes.Some? ==> Valid(d, hops, yes.value, v)
            else no.Some? ==> Valid(d, hops, no.value, v))
    case _ => true
  }

  predicate ValidFields(d: Doc, hops: nat, f: Fields, all: Fields, v: Json)
    decreases hops, f
  {
    f.Field? ==> ValidOne(d, hops, f.key, f.value, all, v) && ValidFields(d, hops, f.rest, all, v)
  }

  /** One keyword of a schema with entries `all`; `if`, `then` and `else` are read together. */
  predicate ValidOne(d: Doc, hops: nat, key: string, value: Json, all: Fields, v: Json)
    decreases hops, value, 3
  {
    match KeywordOf(key)
    case Type => (value.String? ==> IsType(v, value.s)) && (value.Arr? ==> OneOfTypes(value.items, v))
    case Enum => value.Arr? ==> Holds(value.items, v)
    case Const => v == value
    case MinItems =>
      if value.Int? then v.Arr? ==> Count(v.items) >= value.n else Scalar(value) ==> d.x.scalar(key, value, v)
    case Required => value.Arr? && v.Obj? ==> Present(value.items, v.fields)
    case DependentRequired => value.Obj? && v.Obj? ==> PresentWith(value.fields, v.fields)
    case Properties => value.Obj? && v.Obj? ==> ValidProperties(d, hops, value.fields, v.fields)
    case PatternProperties => value.Obj? && v.Obj? ==> ValidPatterns(d, hops, value.fields, v.fields)
    case AdditionalProperties =>
      v.Obj? ==> ValidOthers(d, hops, value, Table(all, "properties"), Table(all, "patternProperties"), v.fields)
    case PropertyNames => v.Obj? ==> ValidNames(d, hops, value, v.fields)
    case DependentSchemas => value.Obj? && v.Obj? ==> ValidDependents(d, hops, value.fields, v.fields, v)
    case EachItem => v.Arr? ==> ValidEach(d, hops, value, Skip(v.items, PrefixLength(all)))
    case PrefixItems => value.Arr? && v.Arr? ==> ValidPrefix(d, hops, value.items, v.items)
    case Contains =>
      v.Arr? ==> Enough(HowMany(d, hops, value, v.items), IntAt(all, "minContains"), IntAt(all, "maxContains"))
    case AllOf => value.Arr? ==> ValidAll(d, hops, value.items, v)
    case AnyOf => value.Arr? ==> ValidAny(d, hops, value.items, v)
    case OneOf => value.Arr? ==> Alternatives(d, hops, value.items, v) == 1
    case Not => !Valid(d, hops, value, v)
    case Reference =>
      var t := Target(d.root, value);
      t.Some? && hops > 0 ==> Valid(d, hops - 1, t.value, v)
    case Beside => true
    case Other => Scalar(value) ==> d.x.scalar(key, value, v)
  }

  predicate Enough(n: nat, least: Option<int>, most: Option<int>) {
    n >= (if least.Some? then least.value else 1) && (most.Some? ==> n <= most.value)
  }

  predicate ValidProperties(d: Doc, hops: nat, p: Fields, v: Fields)
    decreases hops, p
  {
    p.Field? ==>
      && (Get(v, p.key).Some? ==> Valid(d, hops, p.value, Get(v, p.key).value))
      && ValidProperties(d, hops, p.rest, v)
  }

  predicate ValidPatterns(d: Doc, hops: nat, p: Fields, v: Fields)
    decreases hops, p
  {
    p.Field? ==> ValidMatching(d, hops, p.key, p.value, v) && ValidPatterns(d, hops, p.rest, v)
  }

  predicate ValidMatching(d: Doc, hops: nat, pattern: string, s: Json, v: Fields)
    decreases hops, s, 2, v
  {
    v.Field? ==>
      (d.x.matches(pattern, v.key) ==> Valid(d, hops, s, v.value)) && ValidMatching(d, hops, pattern, s, v.rest)
  }

  predicate ValidOthers(d: Doc, hops: nat, s: Json, named: Fields, patterns: Fields, v: Fields)
    decreases hops, s, 2, v
  {
    v.Field? ==>
      && (Get(named, v.key).None? && !AnyMatches(d.x, patterns, v.key) ==> Valid(d, hops, s, v.value))
      && ValidOthers(d, hops, s, named, patterns, v.rest)
  }

  predicate ValidNames(d: Doc, hops: nat, s: Json, v: Fields)
    decreases hops, s, 2, v
  {
    v.Field? ==> Valid(d, hops, s, String(v.key)) && ValidNames(d, hops, s, v.rest)
  }

  predicate ValidDependents(d: Doc, hops: nat, p: Fields, names: Fields, v: Json)
    decreases hops, p
  {
    p.Field? ==> (Get(names, p.key).Some? ==> Valid(d, hops, p.value, v)) && ValidDependents(d, hops, p.rest, names, v)
  }

  predicate ValidEach(d: Doc, hops: nat, s: Json, items: Items)
    decreases hops, s, 2, items
  {
    items.Item? ==> Valid(d, hops, s, items.head) && ValidEach(d, hops, s, items.tail)
  }

  predicate ValidPrefix(d: Doc, hops: nat, schemas: Items, items: Items)
    decreases hops, schemas
  {
    schemas.Item? && items.Item? ==>
      Valid(d, hops, schemas.head, items.head) && ValidPrefix(d, hops, schemas.tail, items.tail)
  }

  function HowMany(d: Doc, hops: nat, s: Json, items: Items): nat
    decreases hops, s, 2, items
  {
    if items.End? then 0 else (if Valid(d, hops, s, items.head) then 1 else 0) + HowMany(d, hops, s, items.tail)
  }

  predicate ValidAll(d: Doc, hops: nat, schemas: Items, v: Json)
    decreases hops, schemas
  {
    schemas.Item? ==> Valid(d, hops, schemas.head, v) && ValidAll(d, hops, schemas.tail, v)
  }

  predicate ValidAny(d: Doc, hops: nat, schemas: Items, v: Json)
    decreases hops, schemas
  {
    schemas.Item? && (Valid(d, hops, schemas.head, v) || ValidAny(d, hops, schemas.tail, v))
  }

  function Alternatives(d: Doc, hops: nat, schemas: Items, v: Json): nat
    decreases hops, schemas
  {
    if schemas.End? then 0
    else (if Valid(d, hops, schemas.head, v) then 1 else 0) + Alternatives(d, hops, schemas.tail, v)
  }

  // ----- the schemas stripping only weakens, and those it only strengthens -----

  /** The node keeps every entry from `f` on, and its `minItems`. */
  predicate Whole(f: Fields, all: Fields) {
    f.Field? ==> !Dropped(all, f.key) && Capped(all, f.key, f.value) == f.value && Whole(f.rest, all)
  }

  /** References to what stripping only weakens, and to what it only strengthens. */
  datatype Refs = Refs(weaker: set<string>, stronger: set<string>)

  /**
    Stripping can only weaken the schema (`up`), or can only strengthen it. It weakens a node by what it drops there, so
    only a node that keeps everything is never weakened; `not` turns the direction; both are asked of what is counted or
    decided on: `oneOf`, `if`, and `contains` under a `maxContains`. A name must stay in the tables that
    `additionalProperties` looks at; values to compare with must be left alone; a reference goes the way of its target.
   */
  predicate Fit(refs: Refs, up: bool, s: Json)
    decreases s, 1
  {
    s.Obj? ==>
      var f := s.fields;
      var test, yes, no := Get(f, "if"), Get(f, "then"), Get(f, "else");
      && FitFields(refs, up, f, f) && (up || Whole(f, f))
      && (test.Some? && (yes.Some? || no.Some?) ==> Fit(refs, true, test.value) && Fit(refs, false, test.value))
      && (test.Some? && yes.Some? ==> Fit(refs, up, yes.value))
      && (test.Some? && no.Some? ==> Fit(refs, up, no.value))
  }

  predicate FitFields(refs: Refs, up: bool, f: Fields, all: Fields)
    decreases f
  {
    f.Field? ==> FitOne(refs, up, f.key, f.value, all) && FitFields(refs, up, f.rest, all)
  }

  predicate FitOne(refs: Refs, up: bool, key: string, value: Json, all: Fields)
    decreases value, 2
  {
    match KeywordOf(key)
    case Enum => value.Arr? ==> AcceptedItems(value.items)
    case Const => Accepted(value)
    case DependentRequired => value.Obj? ==> up || Whole(value.fields, value.fields)
    case Properties =>
      value.Obj? ==> FitTable(refs, up, value.fields) && (up || Whole(value.fields, value.fields))
    case PatternProperties =>
      value.Obj? ==> FitTable(refs, up, value.fields) && (up || Whole(value.fields, value.fields))
    case DependentSchemas =>
      value.Obj? ==> FitTable(refs, up, value.fields) && (up || Whole(value.fields, value.fields))
    case AdditionalProperties => Fit(refs, up, value) && NamesStay(all)
    case PropertyNames => Fit(refs, up, value)
    case EachItem => Fit(refs, up, value)
    case Contains => Fit(refs, up, value) && (IntAt(all, "maxContains").Some? ==> Fit(refs, !up, value))
    case PrefixItems => value.Arr? ==> FitAll(refs, up, value.items)
    case AllOf => value.Arr? ==> FitAll(refs, up, value.items)
    case AnyOf => value.Arr? ==> FitAll(refs, up, value.items)
    case OneOf => value.Arr? ==> FitAll(refs, up, value.items) && FitAll(refs, !up, value.items)
    case Not => Fit(refs, !up, value)
    case Reference => value.String? ==> value.s in if up then refs.weaker else refs.stronger
    case _ => true
  }

  predicate NamesStay(all: Fields) {
    var p, q := Table(all, "properties"), Table(all, "patternProperties");
    Whole(p, p) && Whole(q, q)
  }

  predicate FitTable(refs: Refs, up: bool, p: Fields)
    decreases p
  {
    p.Field? ==> Fit(refs, up, p.value) && FitTable(refs, up, p.rest)
  }

  predicate FitAll(refs: Refs, up: bool, schemas: Items)
    decreases schemas
  {
    schemas.Item? ==> Fit(refs, up, schemas.head) && FitAll(refs, up, schemas.tail)
  }

  /** The document only weakens, its definitions keep their names, and what is referred to goes the way it should. */
  predicate FitDoc(refs: Refs, root: Json) {
    && Fit(refs, true, root)
    && (root.Obj? ==> var t := Table(root.fields, "$defs"); Whole(t, t))
    && (forall r :: r in refs.weaker ==> FitTarget(refs, true, root, r))
    && (forall r :: r in refs.stronger ==> FitTarget(refs, false, root, r))
  }

  predicate FitTarget(refs: Refs, up: bool, root: Json, reference: string) {
    var t := Target(root, String(reference));
    t.Some? ==> Fit(refs, up, t.value)
  }

  /** Some reading of its references makes the document one that stripping only weakens. */
  ghost predicate Weakens(root: Json) {
    exists refs :: FitDoc(refs, root)
  }

  /** A table of schemas declares no type of its own, so stripping keeps every name in it. */
  lemma {:induction false} SchemaTablesStay(p: Fields, all: Fields)
    requires OnlySchemas(p) && OnlySchemas(all)
    ensures Whole(p, all)
  {
    if p.Field? {
      if Get(all, "type").Some? {
        OnlySchemasHas(all, "type");
      }
      SchemaTablesStay(p.rest, all);
    }
  }

  predicate OnlySchemas(p: Fields) {
    p.Field? ==> (p.value.Bool? || p.value.Obj?) && OnlySchemas(p.rest)
  }

  lemma {:induction false} OnlySchemasHas(p: Fields, key: string)
    requires OnlySchemas(p) && Get(p, key).Some?
    ensures Get(p, key).value.Bool? || Get(p, key).value.Obj?
  {
    if p.key != key {
      OnlySchemasHas(p.rest, key);
    }
  }

  /** No `$ref` anywhere. */
  predicate NoReference(s: Json)
    decreases s
  {
    match s
    case Arr(items) => NoReferenceItems(items)
    case Obj(fields) => NoReferenceFields(fields)
    case _ => true
  }

  predicate NoReferenceItems(items: Items)
    decreases items
  {
    items.Item? ==> NoReference(items.head) && NoReferenceItems(items.tail)
  }

  predicate NoReferenceFields(f: Fields)
    decreases f
  {
    f.Field? ==> f.key != "$ref" && NoReference(f.value) && NoReferenceFields(f.rest)
  }

  predicate Untouched(s: Json) {
    Accepted(s) && NoReference(s)
  }

  lemma {:induction false} AcceptedWhole(f: Fields, all: Fields)
    requires AcceptedFields(f, all) && !(TypeList(all) && Get(all, "enum").Some?)
    ensures Whole(f, all)
  {
    if f.Field? {
      AcceptedWhole(f.rest, all);
    }
  }

  lemma {:induction false} UntouchedAt(f: Fields, all: Fields, key: string)
    requires AcceptedFields(f, all) && NoReferenceFields(f) && Get(f, key).Some?
    ensures Untouched(Get(f, key).value)
  {
    if f.key != key {
      UntouchedAt(f.rest, all, key);
    }
  }

  lemma UntouchedTable(all: Fields, key: string)
    requires Untouched(Obj(all))
    ensures Whole(Table(all, key), Table(all, key))
  {
    if Get(all, key).Some? {
      UntouchedAt(all, all, key);
      if Get(all, key).value.Obj? {
        AcceptedWhole(Table(all, key), Table(all, key));
      }
    }
  }

  /** What native accepts already, and names nothing elsewhere, fits both ways: it may stand under anything. */
  lemma {:induction false} UntouchedFits(refs: Refs, up: bool, s: Json)
    requires Untouched(s)
    ensures Fit(refs, up, s)
    decreases s, 1
  {
    if s.Obj? {
      var f := s.fields;
      AcceptedWhole(f, f);
      UntouchedFieldsFit(refs, up, f, f);
      if Get(f, "if").Some? {
        UntouchedAt(f, f, "if");
        UntouchedFits(refs, true, Get(f, "if").value);
        UntouchedFits(refs, false, Get(f, "if").value);
      }
      if Get(f, "then").Some? {
        UntouchedAt(f, f, "then");
        UntouchedFits(refs, up, Get(f, "then").value);
      }
      if Get(f, "else").Some? {
        UntouchedAt(f, f, "else");
        UntouchedFits(refs, up, Get(f, "else").value);
      }
    }
  }

  lemma {:induction false} UntouchedFieldsFit(refs: Refs, up: bool, f: Fields, all: Fields)
    requires AcceptedFields(f, all) && NoReferenceFields(f) && Untouched(Obj(all))
    ensures FitFields(refs, up, f, all)
    decreases f
  {
    if f.Field? {
      UntouchedFieldsFit(refs, up, f.rest, all);
      UntouchedOneFits(refs, up, f.key, f.value, all);
    }
  }

  lemma {:induction false} UntouchedOneFits(refs: Refs, up: bool, key: string, value: Json, all: Fields)
    requires Untouched(value) && key != "$ref" && Untouched(Obj(all))
    ensures FitOne(refs, up, key, value, all)
    decreases value, 2
  {
    hide Whole;
    hide Fit;
    UntouchedTable(all, "properties");
    UntouchedTable(all, "patternProperties");
    UntouchedFits(refs, up, value);
    UntouchedFits(refs, !up, value);
    if value.Arr? {
      UntouchedAllFit(refs, up, value.items);
      UntouchedAllFit(refs, !up, value.items);
    }
    if value.Obj? {
      AcceptedWhole(value.fields, value.fields);
      UntouchedTableFits(refs, up, value.fields, value.fields);
    }
  }

  lemma {:induction false} UntouchedAllFit(refs: Refs, up: bool, schemas: Items)
    requires AcceptedItems(schemas) && NoReferenceItems(schemas)
    ensures FitAll(refs, up, schemas)
    decreases schemas
  {
    if schemas.Item? {
      UntouchedFits(refs, up, schemas.head);
      UntouchedAllFit(refs, up, schemas.tail);
    }
  }

  lemma {:induction false} UntouchedTableFits(refs: Refs, up: bool, p: Fields, all: Fields)
    requires AcceptedFields(p, all) && NoReferenceFields(p)
    ensures FitTable(refs, up, p)
    decreases p
  {
    if p.Field? {
      UntouchedFits(refs, up, p.value);
      UntouchedTableFits(refs, up, p.rest, all);
    }
  }

  // ----- what stripping leaves as it is -----

  lemma {:induction false} WholeKeeps(f: Fields, all: Fields, key: string)
    requires Whole(f, all) && Get(f, key).Some?
    ensures !Dropped(all, key) && Capped(all, key, Stripped(Get(f, key).value)) == Stripped(Get(f, key).value)
  {
    if f.key != key {
      WholeKeeps(f.rest, all, key);
    }
  }

  lemma WholeTable(p: Fields, key: string)
    requires Whole(p, p)
    ensures Get(StrippedFields(p, p), key)
         == if Get(p, key).Some? then Some(Stripped(Get(p, key).value)) else None
  {
    GetStripped(p, p, key);
    if Get(p, key).Some? {
      WholeKeeps(p, p, key);
    }
  }

  lemma TableStripped(f: Fields, key: string)
    requires key == "properties" || key == "patternProperties" || key == "$defs"
    ensures var p := Table(f, key); Table(StrippedFields(f, f), key) == StrippedFields(p, p)
  {
    GetStripped(f, f, key);
  }

  lemma {:induction false} MatchesStripped(x: Meaning, p: Fields, all: Fields, name: string)
    requires Whole(p, all)
    ensures AnyMatches(x, StrippedFields(p, all), name) <==> AnyMatches(x, p, name)
  {
    if p.Field? {
      MatchesStripped(x, p.rest, all, name);
    }
  }

  lemma {:induction false} TypesStay(types: Items, v: Json)
    ensures OneOfTypes(StrippedItems(types), v) <==> OneOfTypes(types, v)
  {
    if types.Item? {
      TypesStay(types.tail, v);
    }
  }

  lemma {:induction false} PresentStays(names: Items, v: Fields)
    ensures Present(StrippedItems(names), v) <==> Present(names, v)
  {
    if names.Item? {
      PresentStays(names.tail, v);
    }
  }

  lemma {:induction false} CountStays(items: Items)
    ensures Count(StrippedItems(items)) == Count(items)
  {
    if items.Item? {
      CountStays(items.tail);
    }
  }

  lemma PrefixStays(f: Fields)
    ensures PrefixLength(StrippedFields(f, f)) == PrefixLength(f)
  {
    GetStripped(f, f, "prefixItems");
    if Get(f, "prefixItems").Some? && Get(f, "prefixItems").value.Arr? {
      CountStays(Get(f, "prefixItems").value.items);
    }
  }

  lemma BoundStays(f: Fields, key: string)
    requires key == "minContains" || key == "maxContains"
    ensures IntAt(StrippedFields(f, f), key) == IntAt(f, key)
  {
    GetStripped(f, f, key);
  }

  function StrippedDoc(d: Doc): Doc {
    d.(root := Stripped(d.root))
  }

  /** References name the stripped definitions. */
  lemma TargetStripped(refs: Refs, root: Json, reference: Json)
    requires FitDoc(refs, root)
    ensures var t := Target(root, reference);
            Target(Stripped(root), reference) == if t.Some? then Some(Stripped(t.value)) else None
  {
    if root.Obj? && reference.String? && |reference.s| > |DEFS| && reference.s[..|DEFS|] == DEFS {
      TableStripped(root.fields, "$defs");
      WholeTable(Table(root.fields, "$defs"), reference.s[|DEFS|..]);
    }
  }

  // ----- the direction stripping takes -----

  /** What was true stays true, or what is true was true. */
  predicate Goes(up: bool, was: bool, now: bool) {
    if up then was ==> now else now ==> was
  }

  lemma BranchStripped(f: Fields, key: string)
    requires key == "if" || key == "then" || key == "else"
    ensures var was := Get(f, key);
            Get(StrippedFields(f, f), key) == if was.Some? then Some(Stripped(was.value)) else None
  {
    GetStripped(f, f, key);
  }

  /** Stripping takes every schema one way: an instance stays valid, or one valid now was valid before. */
  lemma {:induction false} Moves(d: Doc, refs: Refs, hops: nat, up: bool, s: Json, v: Json)
    requires Fit(refs, up, s) && FitDoc(refs, d.root)
    ensures Goes(up, Valid(d, hops, s, v), Valid(StrippedDoc(d), hops, Stripped(s), v))
    decreases hops, s, 1
  {
    hide ValidFields;
    hide FitFields;
    hide Whole;
    hide StrippedFields;
    hide FitDoc;
    hide StrippedDoc;
    if s.Obj? {
      var f := s.fields;
      var test, yes, no := Get(f, "if"), Get(f, "then"), Get(f, "else");
      hide Get;
      FieldsMove(d, refs, hops, up, f, f, v);
      BranchStripped(f, "if");
      BranchStripped(f, "then");
      BranchStripped(f, "else");
      if test.Some? && (yes.Some? || no.Some?) {
        Moves(d, refs, hops, true, test.value, v);
        Moves(d, refs, hops, false, test.value, v);
      }
      if test.Some? && yes.Some? { Moves(d, refs, hops, up, yes.value, v); }
      if test.Some? && no.Some? { Moves(d, refs, hops, up, no.value, v); }
    }
  }

  lemma {:induction false} FieldsMove(d: Doc, refs: Refs, hops: nat, up: bool, f: Fields, all: Fields, v: Json)
    requires FitFields(refs, up, f, all) && (up || Whole(f, all)) && FitDoc(refs, d.root)
    ensures Goes(up, ValidFields(d, hops, f, all, v),
                 ValidFields(StrippedDoc(d), hops, StrippedFields(f, all), StrippedFields(all, all), v))
    decreases hops, f
  {
    if f.Field? {
      FieldsMove(d, refs, hops, up, f.rest, all, v);
      if !Dropped(all, f.key) {
        OneMoves(d, refs, hops, up, f.key, f.value, all, v);
      }
    }
  }

  lemma {:induction false} OneMoves(
      d: Doc, refs: Refs, hops: nat, up: bool, key: string, value: Json, all: Fields, v: Json)
    requires FitOne(refs, up, key, value, all) && (up || Capped(all, key, value) == value) && FitDoc(refs, d.root)
    ensures Goes(up, ValidOne(d, hops, key, value, all, v),
                 ValidOne(StrippedDoc(d), hops, key, Capped(all, key, Stripped(value)), StrippedFields(all, all), v))
    decreases hops, value, 3
  {
    hide Valid;
    hide ValidProperties;
    hide ValidPatterns;
    hide ValidOthers;
    hide ValidNames;
    hide ValidDependents;
    hide ValidEach;
    hide ValidPrefix;
    hide HowMany;
    hide ValidAll;
    hide ValidAny;
    hide Alternatives;
    hide Target;
    hide PresentWith;
    hide Present;
    hide OneOfTypes;
    hide AcceptedItems;
    hide Accepted;
    hide FitAll;
    hide FitTable;
    hide Fit;
    hide StrippedFields;
    hide StrippedItems;
    hide Whole;
    hide Table;
    hide KeywordOf;
    hide Count;
    hide Skip;
    hide PrefixLength;
    hide Holds;
    hide IsType;
    hide HasKind;
    hide FitDoc;
    hide Enough;
    hide IntAt;
    match KeywordOf(key)
    case Type => if value.Arr? { TypesStay(value.items, v); }
    case Enum => if value.Arr? { AcceptedItemsStay(value.items); }
    case Const => AcceptedStays(value);
    case Required => if value.Arr? && v.Obj? { PresentStays(value.items, v.fields); }
    case DependentRequired =>
      if value.Obj? && v.Obj? { DependentsPresent(up, value.fields, value.fields, v.fields); }
    case Properties =>
      if value.Obj? && v.Obj? { PropertiesMove(d, refs, hops, up, value.fields, value.fields, v.fields); }
    case PatternProperties =>
      if value.Obj? && v.Obj? { PatternsMove(d, refs, hops, up, value.fields, value.fields, v.fields); }
    case AdditionalProperties => if v.Obj? { OthersMove(d, refs, hops, up, value, all, v.fields); }
    case PropertyNames => if v.Obj? { NamesMove(d, refs, hops, up, value, v.fields); }
    case DependentSchemas =>
      if value.Obj? && v.Obj? { DependentsMove(d, refs, hops, up, value.fields, value.fields, v.fields, v); }
    case EachItem =>
      PrefixStays(all);
      if v.Arr? { EachMoves(d, refs, hops, up, value, Skip(v.items, PrefixLength(all))); }
    case PrefixItems => if value.Arr? && v.Arr? { PrefixMoves(d, refs, hops, up, value.items, v.items); }
    case Contains => if v.Arr? { ContainsMoves(d, refs, hops, up, value, all, v.items); }
    case AllOf => if value.Arr? { AllMove(d, refs, hops, up, value.items, v); }
    case AnyOf => if value.Arr? { AnyMoves(d, refs, hops, up, value.items, v); }
    case OneOf => if value.Arr? { AlternativesStay(d, refs, hops, up, value.items, v); }
    case Not => Moves(d, refs, hops, !up, value, v);
    case Reference => ReferenceMoves(d, refs, hops, up, value, v);
    case _ =>
  }

  lemma {:induction false} ReferenceMoves(d: Doc, refs: Refs, hops: nat, up: bool, value: Json, v: Json)
    requires FitDoc(refs, d.root)
    requires value.String? ==> value.s in if up then refs.weaker else refs.stronger
    ensures var t, now := Target(d.root, value), Target(Stripped(d.root), Stripped(value));
            Goes(up, t.Some? && hops > 0 ==> Valid(d, hops - 1, t.value, v),
                 now.Some? && hops > 0 ==> Valid(StrippedDoc(d), hops - 1, now.value, v))
    decreases hops, value, 2
  {
    if value.String? {
      TargetStripped(refs, d.root, value);
      assert FitTarget(refs, up, d.root, value.s);
      if Target(d.root, value).Some? && hops > 0 {
        Moves(d, refs, hops - 1, up, Target(d.root, value).value, v);
      }
    }
  }

  lemma {:induction false} DependentsPresent(up: bool, p: Fields, all: Fields, v: Fields)
    requires up || Whole(p, all)
    ensures Goes(up, PresentWith(p, v), PresentWith(StrippedFields(p, all), v))
  {
    if p.Field? {
      DependentsPresent(up, p.rest, all, v);
      if p.value.Arr? {
        PresentStays(p.value.items, v);
      }
    }
  }

  lemma {:induction false} PropertiesMove(d: Doc, refs: Refs, hops: nat, up: bool, p: Fields, all: Fields, v: Fields)
    requires FitTable(refs, up, p) && (up || Whole(p, all)) && FitDoc(refs, d.root)
    ensures Goes(up, ValidProperties(d, hops, p, v), ValidProperties(StrippedDoc(d), hops, StrippedFields(p, all), v))
    decreases hops, p
  {
    if p.Field? {
      PropertiesMove(d, refs, hops, up, p.rest, all, v);
      if Get(v, p.key).Some? {
        Moves(d, refs, hops, up, p.value, Get(v, p.key).value);
      }
    }
  }

  lemma {:induction false} PatternsMove(d: Doc, refs: Refs, hops: nat, up: bool, p: Fields, all: Fields, v: Fields)
    requires FitTable(refs, up, p) && (up || Whole(p, all)) && FitDoc(refs, d.root)
    ensures Goes(up, ValidPatterns(d, hops, p, v), ValidPatterns(StrippedDoc(d), hops, StrippedFields(p, all), v))
    decreases hops, p
  {
    if p.Field? {
      PatternsMove(d, refs, hops, up, p.rest, all, v);
      MatchingMoves(d, refs, hops, up, p.key, p.value, Capped(all, p.key, Stripped(p.value)), v);
    }
  }

  lemma {:induction false} MatchingMoves(
      d: Doc, refs: Refs, hops: nat, up: bool, pattern: string, s: Json, out: Json, v: Fields)
    requires Fit(refs, up, s) && FitDoc(refs, d.root) && (out == Stripped(s) || (s.Int? && out.Int?))
    ensures Goes(up, ValidMatching(d, hops, pattern, s, v), ValidMatching(StrippedDoc(d), hops, pattern, out, v))
    decreases hops, s, 2, v
  {
    if v.Field? {
      Moves(d, refs, hops, up, s, v.value);
      MatchingMoves(d, refs, hops, up, pattern, s, out, v.rest);
    }
  }

  lemma {:induction false} DependentsMove(
      d: Doc, refs: Refs, hops: nat, up: bool, p: Fields, all: Fields, names: Fields, v: Json)
    requires FitTable(refs, up, p) && (up || Whole(p, all)) && FitDoc(refs, d.root)
    ensures Goes(up, ValidDependents(d, hops, p, names, v),
                 ValidDependents(StrippedDoc(d), hops, StrippedFields(p, all), names, v))
    decreases hops, p
  {
    if p.Field? {
      DependentsMove(d, refs, hops, up, p.rest, all, names, v);
      Moves(d, refs, hops, up, p.value, v);
    }
  }

  lemma {:induction false} OthersMove(d: Doc, refs: Refs, hops: nat, up: bool, s: Json, all: Fields, v: Fields)
    requires Fit(refs, up, s) && NamesStay(all) && FitDoc(refs, d.root)
    ensures var out := StrippedFields(all, all);
            Goes(up, ValidOthers(d, hops, s, Table(all, "properties"), Table(all, "patternProperties"), v),
                 ValidOthers(StrippedDoc(d), hops, Stripped(s),
                             Table(out, "properties"), Table(out, "patternProperties"), v))
    decreases hops, s, 2, v
  {
    if v.Field? {
      OthersMove(d, refs, hops, up, s, all, v.rest);
      Moves(d, refs, hops, up, s, v.value);
      TableStripped(all, "properties");
      TableStripped(all, "patternProperties");
      WholeTable(Table(all, "properties"), v.key);
      MatchesStripped(d.x, Table(all, "patternProperties"), Table(all, "patternProperties"), v.key);
    }
  }

  lemma {:induction false} NamesMove(d: Doc, refs: Refs, hops: nat, up: bool, s: Json, v: Fields)
    requires Fit(refs, up, s) && FitDoc(refs, d.root)
    ensures Goes(up, ValidNames(d, hops, s, v), ValidNames(StrippedDoc(d), hops, Stripped(s), v))
    decreases hops, s, 2, v
  {
    if v.Field? {
      NamesMove(d, refs, hops, up, s, v.rest);
      Moves(d, refs, hops, up, s, String(v.key));
    }
  }

  lemma {:induction false} EachMoves(d: Doc, refs: Refs, hops: nat, up: bool, s: Json, items: Items)
    requires Fit(refs, up, s) && FitDoc(refs, d.root)
    ensures Goes(up, ValidEach(d, hops, s, items), ValidEach(StrippedDoc(d), hops, Stripped(s), items))
    decreases hops, s, 2, items
  {
    if items.Item? {
      EachMoves(d, refs, hops, up, s, items.tail);
      Moves(d, refs, hops, up, s, items.head);
    }
  }

  lemma {:induction false} PrefixMoves(d: Doc, refs: Refs, hops: nat, up: bool, schemas: Items, items: Items)
    requires FitAll(refs, up, schemas) && FitDoc(refs, d.root)
    ensures Goes(up, ValidPrefix(d, hops, schemas, items), ValidPrefix(StrippedDoc(d), hops,
            StrippedItems(schemas), items))
    decreases hops, schemas
  {
    if schemas.Item? && items.Item? {
      PrefixMoves(d, refs, hops, up, schemas.tail, items.tail);
      Moves(d, refs, hops, up, schemas.head, items.head);
    }
  }

  lemma {:induction false} ContainsMoves(d: Doc, refs: Refs, hops: nat, up: bool, s: Json, all: Fields, items: Items)
    requires Fit(refs, up, s) && (IntAt(all, "maxContains").Some? ==> Fit(refs, !up, s)) && FitDoc(refs, d.root)
    ensures var out, now := StrippedFields(all, all), StrippedDoc(d);
            Goes(up, Enough(HowMany(d, hops, s, items), IntAt(all, "minContains"), IntAt(all, "maxContains")),
                 Enough(HowMany(now, hops, Stripped(s), items), IntAt(out, "minContains"), IntAt(out, "maxContains")))
    decreases hops, s, 2, items, 1
  {
    BoundStays(all, "minContains");
    BoundStays(all, "maxContains");
    CountMoves(d, refs, hops, up, s, items);
    if IntAt(all, "maxContains").Some? {
      CountMoves(d, refs, hops, !up, s, items);
    }
  }

  lemma {:induction false} CountMoves(d: Doc, refs: Refs, hops: nat, up: bool, s: Json, items: Items)
    requires Fit(refs, up, s) && FitDoc(refs, d.root)
    ensures var was, now := HowMany(d, hops, s, items), HowMany(StrippedDoc(d), hops, Stripped(s), items);
            if up then was <= now else now <= was
    decreases hops, s, 2, items, 0
  {
    if items.Item? {
      CountMoves(d, refs, hops, up, s, items.tail);
      Moves(d, refs, hops, up, s, items.head);
    }
  }

  lemma {:induction false} AllMove(d: Doc, refs: Refs, hops: nat, up: bool, schemas: Items, v: Json)
    requires FitAll(refs, up, schemas) && FitDoc(refs, d.root)
    ensures Goes(up, ValidAll(d, hops, schemas, v), ValidAll(StrippedDoc(d), hops, StrippedItems(schemas), v))
    decreases hops, schemas
  {
    if schemas.Item? {
      AllMove(d, refs, hops, up, schemas.tail, v);
      Moves(d, refs, hops, up, schemas.head, v);
    }
  }

  lemma {:induction false} AnyMoves(d: Doc, refs: Refs, hops: nat, up: bool, schemas: Items, v: Json)
    requires FitAll(refs, up, schemas) && FitDoc(refs, d.root)
    ensures Goes(up, ValidAny(d, hops, schemas, v), ValidAny(StrippedDoc(d), hops, StrippedItems(schemas), v))
    decreases hops, schemas
  {
    if schemas.Item? {
      AnyMoves(d, refs, hops, up, schemas.tail, v);
      Moves(d, refs, hops, up, schemas.head, v);
    }
  }

  lemma {:induction false} AlternativesStay(d: Doc, refs: Refs, hops: nat, up: bool, schemas: Items, v: Json)
    requires FitAll(refs, up, schemas) && FitAll(refs, !up, schemas) && FitDoc(refs, d.root)
    ensures Alternatives(d, hops, schemas, v) == Alternatives(StrippedDoc(d), hops, StrippedItems(schemas), v)
    decreases hops, schemas
  {
    if schemas.Item? {
      AlternativesStay(d, refs, hops, up, schemas.tail, v);
      Moves(d, refs, hops, up, schemas.head, v);
      Moves(d, refs, hops, !up, schemas.head, v);
    }
  }

  /** Every instance valid against such a document is valid against what is left of it. */
  lemma OnlyWeakens(d: Doc, hops: nat, v: Json)
    requires Weakens(d.root) && Valid(d, hops, d.root, v)
    ensures Valid(StrippedDoc(d), hops, Stripped(d.root), v)
  {
    var refs :| FitDoc(refs, d.root);
    Moves(d, refs, hops, true, d.root, v);
  }

  const TEXT := Obj(Field("type", String("string"), NoField))
  const NAMED := Field("a", TEXT, NoField)
  const TO_NAMED := Field("$ref", String(DEFS + "a"), NoField)

  /** An integer with a bound, and not what a definition without one describes. */
  const REFERRING :=
    Field("type", String("integer"), Field("minimum", Int(1),
      Field("not", Obj(TO_NAMED), Field("$defs", Obj(NAMED), NoField))))

  lemma ReferringEntries(key: string)
    ensures Get(REFERRING, key)
         == if key == "type" then Some(String("integer"))
            else if key == "minimum" then Some(Int(1))
            else if key == "not" then Some(Obj(TO_NAMED))
            else if key == "$defs" then Some(Obj(NAMED)) else None
  {
    var two := REFERRING.rest.rest;
    assert Get(two.rest, key) == if key == "$defs" then Some(Obj(NAMED)) else None;
    assert Get(two, key) == if key == "not" then Some(Obj(TO_NAMED)) else Get(two.rest, key);
    assert Get(REFERRING.rest, key) == if key == "minimum" then Some(Int(1)) else Get(two, key);
  }

  lemma TargetNamed()
    ensures Target(Obj(REFERRING), String(DEFS + "a")) == Some(TEXT)
  {
    var r := DEFS + "a";
    ReferringEntries("$defs");
    hide Get;
    assert r[..|DEFS|] == DEFS && r[|DEFS|..] == "a" && |r| == |DEFS| + 1;
    NamedEntry();
  }

  lemma NamedEntry()
    ensures Get(NAMED, "a") == Some(TEXT) && Whole(NAMED, NAMED)
  {
    assert Get(NAMED, "type") == None;
  }

  lemma TextFits(refs: Refs, up: bool)
    ensures Fit(refs, up, TEXT)
  {
    var f := TEXT.fields;
    assert Get(f, "if") == None && Get(f, "type") == Some(String("string"));
  }

  lemma ToNamedEntries(key: string)
    ensures Get(TO_NAMED, key) == if key == "$ref" then Some(String(DEFS + "a")) else None
  {
    assert Get(TO_NAMED.rest, key) == None;
  }

  lemma ToNamedFits(refs: Refs)
    requires DEFS + "a" in refs.stronger
    ensures Fit(refs, false, Obj(TO_NAMED))
  {
    hide Get;
    ToNamedEntries("if");
    ToNamedEntries("type");
    assert Whole(TO_NAMED, TO_NAMED);
    assert FitOne(refs, false, "$ref", String(DEFS + "a"), TO_NAMED);
    assert FitFields(refs, false, TO_NAMED, TO_NAMED);
  }

  lemma ReferringFits(refs: Refs)
    requires DEFS + "a" in refs.stronger
    ensures FitFields(refs, true, REFERRING, REFERRING)
  {
    hide Fit;
    hide Get;
    hide Whole;
    hide FitTable;
    hide FitAll;
    ToNamedFits(refs);
    var one, two, three := REFERRING.rest, REFERRING.rest.rest, REFERRING.rest.rest.rest;
    assert FitFields(refs, true, three.rest, REFERRING);
    assert FitOne(refs, true, "$defs", Obj(NAMED), REFERRING);
    assert FitFields(refs, true, three, REFERRING);
    assert FitOne(refs, true, "not", Obj(TO_NAMED), REFERRING);
    assert FitFields(refs, true, two, REFERRING);
    assert FitOne(refs, true, "minimum", Int(1), REFERRING);
    assert FitFields(refs, true, one, REFERRING);
  }

  /** A reference under `not` is no obstacle when its target is left alone. */
  lemma ReferenceUnderNot()
    ensures Weakens(Obj(REFERRING))
  {
    hide Get;
    hide Fit;
    hide Target;
    hide FitFields;
    hide Whole;
    var refs := Refs({}, {DEFS + "a"});
    ReferringFits(refs);
    ReferringEntries("if");
    FitNode(refs, REFERRING);
    TextFits(refs, false);
    TargetNamed();
    ReferringEntries("$defs");
    NamedEntry();
    assert FitDoc(refs, Obj(REFERRING));
  }

  lemma FitNode(refs: Refs, f: Fields)
    requires FitFields(refs, true, f, f) && Get(f, "if").None?
    ensures Fit(refs, true, Obj(f))
  {
  }

  // ----- where it strengthens -----

  const BOUND := Field("type", String("integer"), Field("minimum", Int(5), NoField))
  const UNBOUND := Field("type", String("integer"), NoField)

  lemma BoundStripped()
    ensures Stripped(Obj(BOUND)) == Obj(UNBOUND)
  {
    assert Get(BOUND, "type") == Some(String("integer")) && HasKind(BOUND, "integer");
    assert StrippedFields(BOUND.rest, BOUND) == NoField;
  }

  lemma NoBranches(d: Doc, f: Fields, v: Json)
    requires Get(f, "if").None?
    ensures Valid(d, 0, Obj(f), v) <==> ValidFields(d, 0, f, f, v)
  {
  }

  lemma BoundMeans(d: Doc, v: Json)
    ensures Valid(d, 0, Obj(BOUND), v) <==> IsType(v, "integer") && d.x.scalar("minimum", Int(5), v)
    ensures Valid(d, 0, Obj(UNBOUND), v) <==> IsType(v, "integer")
  {
    NoBranches(d, BOUND, v);
    NoBranches(d, UNBOUND, v);
    assert ValidFields(d, 0, BOUND.rest, BOUND, v) <==> d.x.scalar("minimum", Int(5), v);
  }

  function Negated(inner: Json): Fields {
    Field("not", inner, NoField)
  }

  lemma NegatedMeans(d: Doc, inner: Json, v: Json)
    ensures Valid(d, 0, Obj(Negated(inner)), v) <==> !Valid(d, 0, inner, v)
  {
    NoBranches(d, Negated(inner), v);
  }

  lemma NegatedStripped(inner: Json)
    ensures Stripped(Obj(Negated(inner))) == Obj(Negated(Stripped(inner)))
  {
    var f := Negated(inner);
    assert Get(f.rest, "type") == None;
    assert Get(f, "type") == None;
    assert StrippedFields(f.rest, f) == NoField;
  }

  /** Under `not` a bound that goes makes the schema stronger: 3 was no number of at least 5, and is refused now. */
  lemma StrengthensUnderNot(d: Doc)
    requires !d.x.scalar("minimum", Int(5), Int(3))
    ensures var s := Obj(Negated(Obj(BOUND)));
            Valid(d, 0, s, Int(3)) && !Valid(d, 0, Stripped(s), Int(3))
  {
    BoundStripped();
    BoundMeans(d, Int(3));
    NegatedStripped(Obj(BOUND));
    NegatedMeans(d, Obj(BOUND), Int(3));
    NegatedMeans(d, Obj(UNBOUND), Int(3));
  }

  /** An array that holds what `inner` describes once. */
  function Once(inner: Json): Fields {
    Field("type", String("array"), Field("contains", inner, Field("maxContains", Int(1), NoField)))
  }

  lemma OnceEntries(inner: Json, key: string)
    ensures Get(Once(inner), key)
         == if key == "type" then Some(String("array"))
            else if key == "contains" then Some(inner)
            else if key == "maxContains" then Some(Int(1)) else None
  {
    var last := Once(inner).rest.rest;
    assert Get(last, key) == if key == "maxContains" then Some(Int(1)) else None;
    assert Get(Once(inner).rest, key) == if key == "contains" then Some(inner) else Get(last, key);
  }

  lemma OnceMeans(d: Doc, inner: Json, items: Items)
    ensures Valid(d, 0, Obj(Once(inner)), Arr(items)) <==> HowMany(d, 0, inner, items) == 1
  {
    hide Get;
    hide Valid;
    var f, v := Once(inner), Arr(items);
    OnceEntries(inner, "if");
    OnceEntries(inner, "minContains");
    OnceEntries(inner, "maxContains");
    NoBranches(d, f, v);
    assert ValidFields(d, 0, f.rest.rest, f, v);
    assert ValidFields(d, 0, f.rest, f, v) <==> ValidOne(d, 0, "contains", inner, f, v);
  }

  lemma OnceStripped(inner: Json)
    ensures Stripped(Obj(Once(inner))) == Obj(Once(Stripped(inner)))
  {
    hide Get;
    var f := Once(inner);
    OnceEntries(inner, "type");
    assert !Dropped(f, "type") && !Dropped(f, "contains") && !Dropped(f, "maxContains");
    assert StrippedFields(f.rest.rest, f) == f.rest.rest;
    assert StrippedFields(f.rest, f) == Field("contains", Stripped(inner), f.rest.rest);
    assert StrippedFields(f, f) == Once(Stripped(inner));
  }

  /** So it does under a `maxContains`: in [5, 3] one was a number of at least 5, and now both count. */
  lemma StrengthensWhatIsCounted(d: Doc)
    requires d.x.scalar("minimum", Int(5), Int(5)) && !d.x.scalar("minimum", Int(5), Int(3))
    ensures var s, v := Obj(Once(Obj(BOUND))), Arr(Item(Int(5), Item(Int(3), End)));
            Valid(d, 0, s, v) && !Valid(d, 0, Stripped(s), v)
  {
    var items := Item(Int(5), Item(Int(3), End));
    BoundStripped();
    BoundMeans(d, Int(5));
    BoundMeans(d, Int(3));
    hide Valid;
    OnceStripped(Obj(BOUND));
    OnceMeans(d, Obj(BOUND), items);
    OnceMeans(d, Obj(UNBOUND), items);
    hide Stripped;
    assert HowMany(d, 0, Obj(BOUND), items.tail) == 0 && HowMany(d, 0, Obj(UNBOUND), items.tail) == 1;
  }
}

/** A JSON Schema as a form: from a value to the text a person edits, and back to the JSON that is sent. */
module SchemaForm {
  import opened Text

  datatype Maybe<+T> = Nothing | Just(value: T)

  datatype Property = Property(name: string, schema: Schema)

  /** The corner of JSON Schema that OCPP's commands use. (An object's property names are distinct.) */
  datatype Schema = Schema(
    typeName: string, hasProperties: bool, properties: seq<Property>, required: set<string>, items: Maybe<Schema>, options: Maybe<seq<Json>>, format: string,
    minimum: Maybe<real>, maximum: Maybe<real>, minLength: Maybe<int>, maxLength: Maybe<int>, minItems: Maybe<int>, maxItems: Maybe<int>)

  const Plain := Schema("", false, [], {}, Nothing, Nothing, "", Nothing, Nothing, Nothing, Nothing, Nothing, Nothing)

  /** `Infinite` is the number that a whole number of too many digits reads as. */
  datatype Json = Null | Bool(b: bool) | Num(n: real) | Infinite(negative: bool) | Str(s: string) | Arr(elements: seq<Json>) | Obj(fields: map<string, Json>)

  /** What is edited: text for a leaf, a list, an object; Absent for an optional part that is not filled in. */
  datatype Draft = Absent | Text(s: string) | List(elements: seq<Draft>) | Fields(fields: map<string, Draft>)

  datatype Kind = AnObject | AnArray | AnInteger | ANumber | AString

  /** How ECMAScript prints and reads numbers, prints other values, and what its patterns accept. */
  datatype Script = Script(render: real -> string, parse: string -> Maybe<real>, show: Json -> string, isDateTime: string -> bool, isUri: string -> bool)

  type Errors = map<string, string>

  datatype Built = Built(value: Maybe<Json>, errors: Errors)

  function KindOf(s: Schema): Kind {
    if s.typeName == "object" || s.hasProperties then AnObject
    else if s.typeName == "array" then AnArray
    else if s.typeName == "integer" then AnInteger
    else if s.typeName == "number" then ANumber
    else AString
  }

  function PropertiesOf(s: Schema): seq<Property> {
    if s.hasProperties then s.properties else []
  }

  function PathOf(parent: string, name: string): string {
    if parent != "" then parent + "." + name else name
  }

  function IndexPath(parent: string, index: nat): string {
    parent + "[" + Dec(index) + "]"
  }

  /** An optional minus sign and digits. */
  predicate IsWhole(text: string) {
    IsDigits(if text != "" && text[0] == '-' then text[1..] else text)
  }

  // ------------------------------------------------------------------
  // Empty drafts, and drafts of values
  // ------------------------------------------------------------------

  function EmptyDraft(s: Schema, required: bool): Draft
    decreases s, 1, 0
  {
    if !required then Absent
    else
      match KindOf(s)
      case AnObject => Fields(EmptyFields(s, |PropertiesOf(s)|))
      case AnArray => List([])
      case _ => Text("")
  }

  /** The drafts of the first `n` properties. */
  function EmptyFields(s: Schema, n: nat): map<string, Draft>
    requires n <= |PropertiesOf(s)|
    decreases s, 0, n
  {
    if n == 0 then map[]
    else
      var p := PropertiesOf(s)[n - 1];
      EmptyFields(s, n - 1)[p.name := EmptyDraft(p.schema, p.name in s.required)]
  }

  function Shown(c: Script, v: Json): string {
    match v
    case Null => ""
    case Str(s) => s
    case Num(n) => c.render(n)
    case Bool(b) => if b then "true" else "false"
    case _ => c.show(v)
  }

  function DraftOf(c: Script, s: Schema, v: Json): Draft
    decreases s, 1, 0
  {
    match KindOf(s)
    case AnObject => if v.Obj? then Fields(FieldsOf(c, s, v.fields, |PropertiesOf(s)|)) else Absent
    case AnArray => if v.Arr? then List(ListOf(c, s, v.elements)) else Absent
    case _ => Text(Shown(c, v))
  }

  function FieldsOf(c: Script, s: Schema, given: map<string, Json>, n: nat): map<string, Draft>
    requires n <= |PropertiesOf(s)|
    decreases s, 0, n
  {
    if n == 0 then map[]
    else
      var p := PropertiesOf(s)[n - 1];
      FieldsOf(c, s, given, n - 1)[p.name := if p.name in given then DraftOf(c, p.schema, given[p.name]) else EmptyDraft(p.schema, p.name in s.required)]
  }

  function ListOf(c: Script, s: Schema, elements: seq<Json>): (drafts: seq<Draft>)
    ensures |drafts| == |elements|
    decreases s, 0, |elements|
  {
    if elements == [] then [] else ListOf(c, s, elements[..|elements| - 1]) + [ItemDraft(c, s, elements[|elements| - 1])]
  }

  function ItemDraft(c: Script, s: Schema, v: Json): Draft
    decreases s, 0, 0
  {
    if s.items.Just? then DraftOf(c, s.items.value, v) else Text(Shown(c, v))
  }

  // ------------------------------------------------------------------
  // The payload of a draft
  // ------------------------------------------------------------------

  function Missing(required: bool, path: string): Built {
    Built(Nothing, if required then map[path := "Required"] else map[])
  }

  function Wrong(path: string, message: string): Built {
    Built(Nothing, map[path := message])
  }

  function If(wrong: bool, path: string, message: string): Errors {
    if wrong then map[path := message] else map[]
  }

  /** The trimmed text of a leaf's draft. */
  function TextOf(d: Draft): string {
    if d.Text? then Trim(d.s) else ""
  }

  function Leaf(c: Script, s: Schema, d: Draft, required: bool, path: string): Built {
    var text := TextOf(d);
    var kind := KindOf(s);
    if text == "" then Missing(required, path)
    else if kind.AnInteger? || kind.ANumber? then
      if (if kind.AnInteger? then !IsWhole(text) else c.parse(text).Nothing?) then
        Wrong(path, if kind.AnInteger? then "Enter a whole number" else "Enter a number")
      else if c.parse(text).Nothing? then
        var negative := text[0] == '-';
        Built(Just(Infinite(negative)), If(s.minimum.Just? && negative, path, "At least") + If(s.maximum.Just? && !negative, path, "At most"))
      else
        var n := c.parse(text).value;
        Built(Just(Num(n)), If(s.minimum.Just? && n < s.minimum.value, path, "At least") + If(s.maximum.Just? && n > s.maximum.value, path, "At most"))
    else if s.options.Just? && Str(text) !in s.options.value then Wrong(path, "Choose one of the listed values")
    else
      Built(Just(Str(text)),
            If(s.maxLength.Just? && |text| > s.maxLength.value, path, "At most") + If(s.minLength.Just? && |text| < s.minLength.value, path, "At least") +
            If(s.format == "date-time" && !c.isDateTime(text), path, "Use a date and time") + If(s.format == "uri" && !c.isUri(text), path, "Enter an address"))
  }

  function Payload(c: Script, s: Schema, d: Draft, required: bool, path: string): Built
    decreases s, 1, 0
  {
    match KindOf(s)
    case AnObject =>
      if d.Absent? then Missing(required, path)
      else if !d.Fields? then Wrong(path, "Not an object")
      else
        var (fields, errors) := FieldPayloads(c, s, d.fields, path, |PropertiesOf(s)|);
        Built(Just(Obj(fields)), errors)
    case AnArray =>
      if d.Absent? then Missing(required, path)
      else if !d.List? then Wrong(path, "Not a list")
      else
        var (elements, errors) := ItemPayloads(c, s, d.elements, path);
        Built(Just(Arr(elements)), errors + CountErrors(s, |d.elements|, path))
    case _ => Leaf(c, s, d, required, path)
  }

  function CountErrors(s: Schema, count: nat, path: string): Errors {
    If(s.minItems.Just? && count < s.minItems.value, path, "At least needed") + If(s.maxItems.Just? && count > s.maxItems.value, path, "At most allowed")
  }

  function FieldPayloads(c: Script, s: Schema, given: map<string, Draft>, path: string, n: nat): (map<string, Json>, Errors)
    requires n <= |PropertiesOf(s)|
    decreases s, 0, n
  {
    if n == 0 then (map[], map[])
    else
      var p := PropertiesOf(s)[n - 1];
      var (fields, errors) := FieldPayloads(c, s, given, path, n - 1);
      var built := Payload(c, p.schema, if p.name in given then given[p.name] else Absent, p.name in s.required, PathOf(path, p.name));
      (if built.value.Just? then fields[p.name := built.value.value] else fields, errors + built.errors)
  }

  function ItemPayloads(c: Script, s: Schema, drafts: seq<Draft>, path: string): (seq<Json>, Errors)
    decreases s, 0, |drafts|
  {
    if drafts == [] then ([], map[])
    else
      var n := |drafts| - 1;
      var (elements, errors) := ItemPayloads(c, s, drafts[..n], path);
      var built := ItemPayload(c, s, drafts[n], IndexPath(path, n));
      (if built.value.Just? then elements + [built.value.value] else elements, errors + built.errors)
  }

  function ItemPayload(c: Script, s: Schema, d: Draft, path: string): Built
    decreases s, 0, 0
  {
    if s.items.Just? then Payload(c, s.items.value, d, true, path) else Leaf(c, Plain, d, true, path)
  }

  // ------------------------------------------------------------------
  // In place
  // ------------------------------------------------------------------

  /** The draft before anything is typed. */
  method MakeEmptyDraft(s: Schema, required: bool) returns (draft: Draft)
    ensures draft == EmptyDraft(s, required)
    decreases s
  {
    if !required {
      return Absent;
    }
    match KindOf(s) {
      case AnObject =>
        var fields: map<string, Draft> := map[];
        var properties := PropertiesOf(s);
        for i := 0 to |properties|
          invariant fields == EmptyFields(s, i)
        {
          var child := MakeEmptyDraft(properties[i].schema, properties[i].name in s.required);
          fields := fields[properties[i].name := child];
        }
        draft := Fields(fields);
      case AnArray => draft := List([]);
      case _ => draft := Text("");
    }
  }

  /** A draft holding a value. */
  method DraftFromValue(c: Script, s: Schema, v: Json) returns (draft: Draft)
    ensures draft == DraftOf(c, s, v)
    decreases s
  {
    match KindOf(s) {
      case AnObject =>
        if !v.Obj? {
          return Absent;
        }
        var fields: map<string, Draft> := map[];
        var properties := PropertiesOf(s);
        for i := 0 to |properties|
          invariant fields == FieldsOf(c, s, v.fields, i)
        {
          var p := properties[i];
          var child;
          if p.name in v.fields {
            child := DraftFromValue(c, p.schema, v.fields[p.name]);
          } else {
            child := MakeEmptyDraft(p.schema, p.name in s.required);
          }
          fields := fields[p.name := child];
        }
        draft := Fields(fields);
      case AnArray =>
        if !v.Arr? {
          return Absent;
        }
        var drafts: seq<Draft> := [];
        for i := 0 to |v.elements|
          invariant drafts == ListOf(c, s, v.elements[..i])
        {
          assert v.elements[..i + 1][..i] == v.elements[..i];
          var item;
          if s.items.Just? {
            item := DraftFromValue(c, s.items.value, v.elements[i]);
          } else {
            item := Text(Shown(c, v.elements[i]));
          }
          drafts := drafts + [item];
        }
        assert v.elements[..|v.elements|] == v.elements;
        draft := List(drafts);
      case _ => draft := Text(Shown(c, v));
    }
  }

  /** Turn a draft into a value, and report the errors by path. */
  method BuildPayload(c: Script, s: Schema, draft: Draft, required: bool, path: string) returns (built: Built)
    ensures built == Payload(c, s, draft, required, path)
    decreases s
  {
    match KindOf(s) {
      case AnObject =>
        if draft.Absent? {
          return Missing(required, path);
        }
        if !draft.Fields? {
          return Wrong(path, "Not an object");
        }
        var value: map<string, Json>, errors: Errors := map[], map[];
        var properties := PropertiesOf(s);
        for i := 0 to |properties|
          invariant (value, errors) == FieldPayloads(c, s, draft.fields, path, i)
        {
          var p := properties[i];
          var child := BuildPayload(c, p.schema, if p.name in draft.fields then draft.fields[p.name] else Absent, p.name in s.required, PathOf(path, p.name));
          errors := errors + child.errors;
          if child.value.Just? {
            value := value[p.name := child.value.value];
          }
        }
        built := Built(Just(Obj(value)), errors);
      case AnArray =>
        if draft.Absent? {
          return Missing(required, path);
        }
        if !draft.List? {
          return Wrong(path, "Not a list");
        }
        var value: seq<Json>, errors: Errors := [], map[];
        for i := 0 to |draft.elements|
          invariant (value, errors) == ItemPayloads(c, s, draft.elements[..i], path)
        {
          assert draft.elements[..i + 1][..i] == draft.elements[..i];
          var item;
          if s.items.Just? {
            item := BuildPayload(c, s.items.value, draft.elements[i], true, IndexPath(path, i));
          } else {
            item := Leaf(c, Plain, draft.elements[i], true, IndexPath(path, i));
          }
          errors := errors + item.errors;
          if item.value.Just? {
            value := value + [item.value.value];
          }
        }
        assert draft.elements[..|draft.elements|] == draft.elements;
        built := Built(Just(Arr(value)), errors + CountErrors(s, |draft.elements|, path));
      case _ => built := Leaf(c, s, draft, required, path);
    }
  }

  // ------------------------------------------------------------------
  // Values that fit a schema
  // ------------------------------------------------------------------

  predicate DistinctNames(properties: seq<Property>) {
    forall i, j :: 0 <= i < j < |properties| ==> properties[i].name != properties[j].name
  }

  predicate Named(properties: seq<Property>, name: string) {
    exists i :: 0 <= i < |properties| && properties[i].name == name
  }

  predicate InBounds(s: Schema, n: real) {
    (s.minimum.Just? ==> s.minimum.value <= n) && (s.maximum.Just? ==> n <= s.maximum.value)
  }

  predicate InLength(s: Schema, text: string) {
    (s.minLength.Just? ==> s.minLength.value <= |text|) && (s.maxLength.Just? ==> |text| <= s.maxLength.value)
  }

  predicate HasFormat(c: Script, s: Schema, text: string) {
    (s.format == "date-time" ==> c.isDateTime(text)) && (s.format == "uri" ==> c.isUri(text))
  }

  predicate RightCount(s: Schema, count: nat) {
    (s.minItems.Just? ==> s.minItems.value <= count) && (s.maxItems.Just? ==> count <= s.maxItems.value)
  }

  /** A number whose printed form reads back as the number (a whole number is printed without an exponent). */
  predicate Printable(c: Script, n: real, whole: bool) {
    var text := c.render(n);
    text != "" && IsTrimmed(text) && c.parse(text) == Just(n) && (whole ==> IsWhole(text))
  }

  /** An object: it says so, or has properties. */
  predicate TakesFields(s: Schema) {
    s.typeName == "object" || s.hasProperties
  }

  predicate TakesItems(s: Schema) {
    s.typeName == "array" && !TakesFields(s)
  }

  predicate LeafConforms(c: Script, s: Schema, v: Json) {
    if s.typeName == "integer" then v.Num? && Printable(c, v.n, true) && InBounds(s, v.n)
    else if s.typeName == "number" then v.Num? && Printable(c, v.n, false) && InBounds(s, v.n)
    else v.Str? && v.s != "" && IsTrimmed(v.s) && (s.options.Just? ==> v in s.options.value) && InLength(s, v.s) && HasFormat(c, s, v.s)
  }

  /** Required fields are there, there are no unknown ones, text is trimmed and not empty, numbers are printable, and every
      limit is kept. */
  ghost predicate Conforms(c: Script, s: Schema, v: Json)
    decreases s, 1
  {
    if TakesFields(s) then
      && v.Obj? && DistinctNames(PropertiesOf(s)) && (forall name :: name in v.fields ==> Named(PropertiesOf(s), name))
      && (forall i :: 0 <= i < |PropertiesOf(s)| ==> FieldConforms(c, s, i, v.fields))
    else if TakesItems(s) then
      v.Arr? && RightCount(s, |v.elements|) && forall i :: 0 <= i < |v.elements| ==> ItemConforms(c, s, v.elements[i])
    else LeafConforms(c, s, v)
  }

  ghost predicate FieldConforms(c: Script, s: Schema, i: nat, fields: map<string, Json>)
    requires i < |PropertiesOf(s)|
    decreases s, 0
  {
    var p := PropertiesOf(s)[i];
    if p.name in fields then Conforms(c, p.schema, fields[p.name]) else p.name !in s.required
  }

  ghost predicate ItemConforms(c: Script, s: Schema, v: Json)
    decreases s, 0
  {
    if s.items.Just? then Conforms(c, s.items.value, v) else LeafConforms(c, Plain, v)
  }

  // ------------------------------------------------------------------
  // Round trip
  // ------------------------------------------------------------------

  lemma LeafRoundTrip(c: Script, s: Schema, v: Json, required: bool, path: string)
    requires LeafConforms(c, s, v) && !KindOf(s).AnObject? && !KindOf(s).AnArray?
    ensures Leaf(c, s, Text(Shown(c, v)), required, path) == Built(Just(v), map[])
  {
    TrimmedStays(Shown(c, v));
  }

  /** An optional part that is left out is left out. */
  lemma LeftOut(c: Script, s: Schema, path: string)
    ensures Payload(c, s, EmptyDraft(s, false), false, path) == Built(Nothing, map[])
  {
  }

  /** MAIN RESULT. For every value that conforms to a schema, building the payload of its draft gives that very value, with
      nothing wrong. */
  lemma {:induction false} ValueSurvives(c: Script, s: Schema, v: Json, required: bool, path: string)
    requires Conforms(c, s, v)
    ensures Payload(c, s, DraftOf(c, s, v), required, path) == Built(Just(v), map[])
    decreases s, 1, 0
  {
    match KindOf(s)
    case AnObject =>
      var n := |PropertiesOf(s)|;
      FieldsSurvive(c, s, v.fields, path, n);
      AllBuilt(PropertiesOf(s), v.fields, FieldPayloads(c, s, FieldsOf(c, s, v.fields, n), path, n).0);
    case AnArray =>
      ItemsSurvive(c, s, v.elements, path);
    case _ =>
      LeafRoundTrip(c, s, v, required, path);
  }

  /** Exactly the given fields among the first `n` properties have been built, unchanged. */
  ghost predicate BuiltTo(properties: seq<Property>, given: map<string, Json>, n: nat, fields: map<string, Json>)
    requires n <= |properties|
  {
    && (forall name :: name in fields <==> name in given && Named(properties[..n], name))
    && (forall name :: name in fields ==> fields[name] == given[name])
  }

  lemma BuiltMore(properties: seq<Property>, given: map<string, Json>, n: nat, fields: map<string, Json>)
    requires n < |properties| && BuiltTo(properties, given, n, fields)
    ensures var name := properties[n].name;
      BuiltTo(properties, given, n + 1, if name in given then fields[name := given[name]] else fields)
  {
    hide Named;
    NamedMore(properties, n);
  }

  /** The drafts of all properties, and the payloads of the first `n` of them. */
  lemma {:induction false} FieldsSurvive(c: Script, s: Schema, given: map<string, Json>, path: string, n: nat)
    requires n <= |PropertiesOf(s)| && DistinctNames(PropertiesOf(s)) && KindOf(s).AnObject?
    requires forall i :: 0 <= i < |PropertiesOf(s)| ==> FieldConforms(c, s, i, given)
    ensures var (fields, errors) := FieldPayloads(c, s, FieldsOf(c, s, given, |PropertiesOf(s)|), path, n);
      errors == map[] && BuiltTo(PropertiesOf(s), given, n, fields)
    decreases s, 0, n
  {
    hide Conforms, Payload, DraftOf, EmptyDraft, FieldsOf, BuiltTo;
    var properties := PropertiesOf(s);
    if n == 0 {
      NothingBuilt(properties, given);
    } else {
      FieldsSurvive(c, s, given, path, n - 1);
      var p := properties[n - 1];
      DraftAt(c, s, given, |properties|, n - 1);
      assert FieldConforms(c, s, n - 1, given);
      BuiltMore(properties, given, n - 1, FieldPayloads(c, s, FieldsOf(c, s, given, |properties|), path, n - 1).0);
      if p.name in given {
        ValueSurvives(c, p.schema, given[p.name], p.name in s.required, PathOf(path, p.name));
      } else {
        LeftOut(c, p.schema, PathOf(path, p.name));
      }
    }
  }

  lemma AllBuilt(properties: seq<Property>, given: map<string, Json>, fields: map<string, Json>)
    requires BuiltTo(properties, given, |properties|, fields) && forall name :: name in given ==> Named(properties, name)
    ensures fields == given
  {
    assert properties[..|properties|] == properties;
  }

  lemma NothingBuilt(properties: seq<Property>, given: map<string, Json>)
    ensures BuiltTo(properties, given, 0, map[])
  {
  }

  lemma NamedMore(properties: seq<Property>, n: nat)
    requires n < |properties|
    ensures forall name :: Named(properties[..n + 1], name) <==> Named(properties[..n], name) || name == properties[n].name
  {
    forall name ensures Named(properties[..n + 1], name) <==> Named(properties[..n], name) || name == properties[n].name {
      if Named(properties[..n], name) {
        var i :| 0 <= i < n && properties[..n][i].name == name;
        assert properties[..n + 1][i].name == name;
      }
      if Named(properties[..n + 1], name) {
        var i :| 0 <= i < n + 1 && properties[..n + 1][i].name == name;
        assert i < n ==> properties[..n][i].name == name;
      }
      assert properties[..n + 1][n] == properties[n];
    }
  }

  /** The draft of each property is where it belongs. */
  lemma {:induction false} DraftAt(c: Script, s: Schema, given: map<string, Json>, n: nat, i: nat)
    requires i < n <= |PropertiesOf(s)| && DistinctNames(PropertiesOf(s))
    ensures var p := PropertiesOf(s)[i];
      && p.name in FieldsOf(c, s, given, n)
      && FieldsOf(c, s, given, n)[p.name] == if p.name in given then DraftOf(c, p.schema, given[p.name]) else EmptyDraft(p.schema, p.name in s.required)
  {
    if i < n - 1 {
      DraftAt(c, s, given, n - 1, i);
    }
  }

  lemma {:induction false} ItemsSurvive(c: Script, s: Schema, elements: seq<Json>, path: string)
    requires forall i :: 0 <= i < |elements| ==> ItemConforms(c, s, elements[i])
    ensures ItemPayloads(c, s, ListOf(c, s, elements), path) == (elements, map[])
    decreases s, 0, |elements|
  {
    if elements != [] {
      var n := |elements| - 1;
      ItemsSurvive(c, s, elements[..n], path);
      assert ListOf(c, s, elements)[..n] == ListOf(c, s, elements[..n]);
      assert ItemConforms(c, s, elements[n]);
      if s.items.Just? {
        ValueSurvives(c, s.items.value, elements[n], true, IndexPath(path, n));
      } else {
        LeafRoundTrip(c, Plain, elements[n], true, IndexPath(path, n));
      }
      assert elements[..n] + [elements[n]] == elements;
    }
  }

  // ------------------------------------------------------------------
  // When what is sent meets the schema
  // ------------------------------------------------------------------

  predicate WholeNumber(n: real) {
    n == n.Floor as real
  }

  predicate LeafMeets(c: Script, s: Schema, v: Json) {
    if s.typeName == "integer" then v.Num? && WholeNumber(v.n) && InBounds(s, v.n)
    else if s.typeName == "number" then v.Num? && InBounds(s, v.n)
    else v.Str? && v.s != "" && (s.options.Just? ==> v in s.options.value) && InLength(s, v.s) && HasFormat(c, s, v.s)
  }

  /** Required fields are there, there are no unknown ones, and every limit is kept. (Nothing infinite meets any schema: JSON
      has no such number, and null is sent for it.) */
  ghost predicate Meets(c: Script, s: Schema, v: Json)
    decreases s, 1
  {
    if TakesFields(s) then
      v.Obj? && (forall name :: name in v.fields ==> Named(PropertiesOf(s), name)) && forall i :: 0 <= i < |PropertiesOf(s)| ==> FieldMeets(c, s, i, v.fields)
    else if TakesItems(s) then v.Arr? && RightCount(s, |v.elements|) && forall i :: 0 <= i < |v.elements| ==> ItemMeets(c, s, v.elements[i])
    else LeafMeets(c, s, v)
  }

  ghost predicate FieldMeets(c: Script, s: Schema, i: nat, fields: map<string, Json>)
    requires i < |PropertiesOf(s)|
    decreases s, 0
  {
    var p := PropertiesOf(s)[i];
    if p.name in fields then Meets(c, p.schema, fields[p.name]) else p.name !in s.required
  }

  ghost predicate ItemMeets(c: Script, s: Schema, v: Json)
    decreases s, 0
  {
    if s.items.Just? then Meets(c, s.items.value, v) else LeafMeets(c, Plain, v)
  }

  /** An integer that was typed is not too long to be read as a number. */
  predicate LeafReads(c: Script, s: Schema, d: Draft) {
    KindOf(s).AnInteger? && TextOf(d) != "" ==> c.parse(TextOf(d)).Just?
  }

  /** ... anywhere in the form. */
  ghost predicate AllRead(c: Script, s: Schema, d: Draft)
    decreases s, 1
  {
    match KindOf(s)
    case AnObject => d.Fields? ==> forall i :: 0 <= i < |PropertiesOf(s)| ==> FieldReads(c, s, i, d.fields)
    case AnArray => d.List? ==> forall i :: 0 <= i < |d.elements| ==> ItemReads(c, s, d.elements[i])
    case _ => LeafReads(c, s, d)
  }

  ghost predicate FieldReads(c: Script, s: Schema, i: nat, given: map<string, Draft>)
    requires i < |PropertiesOf(s)|
    decreases s, 0
  {
    var p := PropertiesOf(s)[i];
    p.name in given ==> AllRead(c, p.schema, given[p.name])
  }

  ghost predicate ItemReads(c: Script, s: Schema, d: Draft)
    decreases s, 0
  {
    s.items.Just? ==> AllRead(c, s.items.value, d)
  }

  /** Every name is a property of its own, at every level. */
  ghost predicate WellNamed(s: Schema)
    decreases s
  {
    && (KindOf(s).AnObject? ==> DistinctNames(PropertiesOf(s)) && forall i :: 0 <= i < |PropertiesOf(s)| ==> WellNamed(PropertiesOf(s)[i].schema))
    && (KindOf(s).AnArray? && s.items.Just? ==> WellNamed(s.items.value))
  }

  /** In ECMAScript, digits read as a whole number whenever they read as a finite one. */
  ghost predicate DigitsReadWhole(c: Script) {
    forall text :: IsWhole(text) && c.parse(text).Just? ==> WholeNumber(c.parse(text).value)
  }

  /** With nothing reported, a part is left out only if it may be, and it was not typed; and what is built meets the schema
      exactly when every integer was read. */
  ghost predicate SentRight(c: Script, s: Schema, d: Draft, required: bool, built: Built) {
    if built.value.Just? then Meets(c, s, built.value.value) <==> AllRead(c, s, d) else !required && AllRead(c, s, d)
  }

  lemma LeafIsSound(c: Script, s: Schema, d: Draft, required: bool, path: string)
    requires DigitsReadWhole(c) && Leaf(c, s, d, required, path).errors == map[] && !KindOf(s).AnObject? && !KindOf(s).AnArray?
    ensures var built := Leaf(c, s, d, required, path);
      if built.value.Just? then LeafMeets(c, s, built.value.value) <==> LeafReads(c, s, d) else !required && LeafReads(c, s, d)
  {
    var built := Leaf(c, s, d, required, path);
    assert path !in built.errors;
  }

  /** MAIN RESULT. Whatever a person typed: if nothing is reported wrong, then what is sent meets the schema if and only if
      every integer in the form was short enough to be read as a number; and a part is left out only if it may be. */
  lemma {:induction false} WhatIsSentMeetsTheSchema(c: Script, s: Schema, d: Draft, required: bool, path: string)
    requires DigitsReadWhole(c) && WellNamed(s) && Payload(c, s, d, required, path).errors == map[]
    ensures SentRight(c, s, d, required, Payload(c, s, d, required, path))
    decreases s, 1, 0
  {
    ErrorsAreErrors(path);
    match KindOf(s)
    case AnObject =>
      if d.Fields? {
        FieldsMeet(c, s, d.fields, path, |PropertiesOf(s)|);
        assert PropertiesOf(s)[..|PropertiesOf(s)|] == PropertiesOf(s);
      }
    case AnArray =>
      if d.List? {
        NoErrors(ItemPayloads(c, s, d.elements, path).1, CountErrors(s, |d.elements|, path));
        CountIsRight(s, |d.elements|, path);
        ListMeets(c, s, d.elements, path);
      }
    case _ =>
      LeafIsSound(c, s, d, required, path);
  }

  /** It does happen: a whole number that reads as infinite gets through where the schema has no bound for it. */
  lemma AnEndlessNumberGetsThrough(c: Script, s: Schema, text: string, required: bool, path: string)
    requires KindOf(s).AnInteger? && IsWhole(text) && c.parse(text).Nothing? && (if text[0] == '-' then s.minimum else s.maximum).Nothing?
    ensures Payload(c, s, Text(text), required, path) == Built(Just(Infinite(text[0] == '-')), map[])
    ensures !Meets(c, s, Infinite(text[0] == '-')) && !Meets(c, s, Null)
  {
    TrimmedStays(text);
  }

  lemma ErrorsAreErrors(path: string)
    ensures Missing(true, path).errors != map[] && forall message :: Wrong(path, message).errors != map[]
  {
    assert path in Missing(true, path).errors && forall message :: path in Wrong(path, message).errors;
  }

  lemma NoErrors(a: Errors, b: Errors)
    requires a + b == map[]
    ensures a == map[] && b == map[]
  {
    assert (a + b).Keys == a.Keys + b.Keys;
  }

  lemma CountIsRight(s: Schema, count: nat, path: string)
    requires CountErrors(s, count, path) == map[]
    ensures RightCount(s, count)
  {
    assert path !in CountErrors(s, count, path);
  }

  /** The fields built from the first `n` properties are theirs, and each meets its schema exactly when its integers were read. */
  lemma {:induction false} FieldsMeet(c: Script, s: Schema, given: map<string, Draft>, path: string, n: nat)
    requires DigitsReadWhole(c) && n <= |PropertiesOf(s)| && KindOf(s).AnObject? && WellNamed(s) && FieldPayloads(c, s, given, path, n).1 == map[]
    ensures var fields := FieldPayloads(c, s, given, path, n).0;
      && (forall name :: name in fields ==> Named(PropertiesOf(s)[..n], name))
      && (forall i :: 0 <= i < n ==> (FieldMeets(c, s, i, fields) <==> FieldReads(c, s, i, given)))
    decreases s, 0, n
  {
    hide Payload, Meets, AllRead, DigitsReadWhole, Named, PathOf;
    var properties := PropertiesOf(s);
    if n > 0 {
      var p := properties[n - 1];
      var (before, errors) := FieldPayloads(c, s, given, path, n - 1);
      var draft := if p.name in given then given[p.name] else Absent;
      var built := Payload(c, p.schema, draft, p.name in s.required, PathOf(path, p.name));
      NoErrors(errors, built.errors);
      FieldsMeet(c, s, given, path, n - 1);
      WhatIsSentMeetsTheSchema(c, p.schema, draft, p.name in s.required, PathOf(path, p.name));
      NothingBuiltFrom(c, p.schema, p.name in s.required, PathOf(path, p.name));
      var fields := FieldPayloads(c, s, given, path, n).0;
      NamedMore(properties, n - 1);
      NotNamedYet(properties, n - 1);
      forall i | 0 <= i < n ensures FieldMeets(c, s, i, fields) <==> FieldReads(c, s, i, given) {
        assert i < n - 1 ==> (FieldMeets(c, s, i, before) <==> FieldReads(c, s, i, given));
      }
    }
  }

  /** Nothing is built from nothing. */
  lemma NothingBuiltFrom(c: Script, s: Schema, required: bool, path: string)
    ensures Payload(c, s, Absent, required, path).value.Nothing?
  {
  }

  lemma NotNamedYet(properties: seq<Property>, n: nat)
    requires n < |properties| && DistinctNames(properties)
    ensures !Named(properties[..n], properties[n].name)
  {
  }

  lemma {:induction false} ListMeets(c: Script, s: Schema, drafts: seq<Draft>, path: string)
    requires DigitsReadWhole(c) && KindOf(s).AnArray? && WellNamed(s) && ItemPayloads(c, s, drafts, path).1 == map[]
    ensures |ItemPayloads(c, s, drafts, path).0| == |drafts|
    ensures forall i :: 0 <= i < |drafts| ==> (ItemMeets(c, s, ItemPayloads(c, s, drafts, path).0[i]) <==> ItemReads(c, s, drafts[i]))
    decreases s, 0, |drafts|
  {
    hide Payload, Meets, Leaf, LeafMeets, AllRead, DigitsReadWhole;
    if drafts != [] {
      var n := |drafts| - 1;
      var (before, errors) := ItemPayloads(c, s, drafts[..n], path);
      var built := ItemPayload(c, s, drafts[n], IndexPath(path, n));
      NoErrors(errors, built.errors);
      ListMeets(c, s, drafts[..n], path);
      if s.items.Just? {
        WhatIsSentMeetsTheSchema(c, s.items.value, drafts[n], true, IndexPath(path, n));
      } else {
        LeafIsSound(c, Plain, drafts[n], true, IndexPath(path, n));
      }
    }
  }

  // ------------------------------------------------------------------
  // What is reported, and where
  // ------------------------------------------------------------------

  /** The text (without white space around it) is not what the schema wants there. */
  predicate LeafWrong(c: Script, s: Schema, text: string, required: bool) {
    if text == "" then required
    else if s.typeName == "integer" then !IsWhole(text) || OutOfBounds(c, s, text)
    else if s.typeName == "number" then c.parse(text).Nothing? || !InBounds(s, c.parse(text).value)
    else (s.options.Just? && Str(text) !in s.options.value) || !InLength(s, text) || !HasFormat(c, s, text)
  }

  /** A whole number that reads as infinite is out of any bounds on its side. */
  predicate OutOfBounds(c: Script, s: Schema, text: string)
    requires text != ""
  {
    if c.parse(text).Just? then !InBounds(s, c.parse(text).value) else (if text[0] == '-' then s.minimum else s.maximum).Just?
  }

  /** Something is wrong at the place `q` of the form: a part is missing, is of the wrong kind, or breaks a limit. */
  ghost predicate WrongAt(c: Script, s: Schema, d: Draft, required: bool, path: string, q: string)
    decreases s, 1
  {
    if TakesFields(s) then
      if d.Fields? then exists i: nat :: i < |PropertiesOf(s)| && FieldWrongAt(c, s, PropertiesOf(s)[i], d.fields, path, q)
      else q == path && (d.Absent? ==> required)
    else if TakesItems(s) then
      if d.List? then (q == path && !RightCount(s, |d.elements|)) || exists i :: 0 <= i < |d.elements| && ItemWrongAt(c, s, d.elements[i], path, i, q)
      else q == path && (d.Absent? ==> required)
    else q == path && LeafWrong(c, s, if d.Text? then Trim(d.s) else "", required)
  }

  ghost predicate FieldWrongAt(c: Script, s: Schema, p: Property, given: map<string, Draft>, path: string, q: string)
    requires p in PropertiesOf(s)
    decreases s, 0
  {
    WrongAt(c, p.schema, if p.name in given then given[p.name] else Absent, p.name in s.required, if path == "" then p.name else path + "." + p.name, q)
  }

  ghost predicate ItemWrongAt(c: Script, s: Schema, d: Draft, path: string, i: nat, q: string)
    decreases s, 0
  {
    var place := path + "[" + Dec(i) + "]";
    if s.items.Just? then WrongAt(c, s.items.value, d, true, place, q)
    else q == place && LeafWrong(c, Plain, if d.Text? then Trim(d.s) else "", true)
  }

  lemma LeafReports(c: Script, s: Schema, d: Draft, required: bool, path: string, q: string)
    requires !TakesFields(s) && !TakesItems(s)
    ensures q in Leaf(c, s, d, required, path).errors <==> q == path && LeafWrong(c, s, if d.Text? then Trim(d.s) else "", required)
  {
  }

  /** MAIN RESULT. Whatever a person typed, an error is reported at a place of the form if and only if something is wrong
      at that very place. */
  lemma {:induction false} ErrorsExactly(c: Script, s: Schema, d: Draft, required: bool, path: string, q: string)
    ensures q in Payload(c, s, d, required, path).errors <==> WrongAt(c, s, d, required, path, q)
    decreases s, 1, 0
  {
    if TakesFields(s) {
      if d.Fields? {
        FieldsReport(c, s, d.fields, path, |PropertiesOf(s)|, q);
      }
    } else if TakesItems(s) {
      if d.List? {
        ItemsReport(c, s, d.elements, path, q);
      }
    } else {
      LeafReports(c, s, d, required, path, q);
    }
  }

  lemma {:induction false} FieldsReport(c: Script, s: Schema, given: map<string, Draft>, path: string, n: nat, q: string)
    requires n <= |PropertiesOf(s)|
    ensures q in FieldPayloads(c, s, given, path, n).1 <==> exists i: nat :: i < n && FieldWrongAt(c, s, PropertiesOf(s)[i], given, path, q)
    decreases s, 0, n
  {
    hide Payload, WrongAt;
    if n > 0 {
      var p := PropertiesOf(s)[n - 1];
      FieldsReport(c, s, given, path, n - 1, q);
      ErrorsExactly(c, p.schema, if p.name in given then given[p.name] else Absent, p.name in s.required, PathOf(path, p.name), q);
      assert PathOf(path, p.name) == if path == "" then p.name else path + "." + p.name;
      assert q in FieldPayloads(c, s, given, path, n).1 <==> q in FieldPayloads(c, s, given, path, n - 1).1 || FieldWrongAt(c, s, p, given, path, q);
    }
  }

  lemma {:induction false} ItemsReport(c: Script, s: Schema, drafts: seq<Draft>, path: string, q: string)
    ensures q in ItemPayloads(c, s, drafts, path).1 <==> exists i :: 0 <= i < |drafts| && ItemWrongAt(c, s, drafts[i], path, i, q)
    decreases s, 0, |drafts|
  {
    hide Payload, WrongAt, Leaf, LeafWrong;
    if drafts != [] {
      var n := |drafts| - 1;
      ItemsReport(c, s, drafts[..n], path, q);
      if s.items.Just? {
        ErrorsExactly(c, s.items.value, drafts[n], true, IndexPath(path, n), q);
      } else {
        LeafReports(c, Plain, drafts[n], true, IndexPath(path, n), q);
      }
      assert IndexPath(path, n) == path + "[" + Dec(n) + "]";
    }
  }
}

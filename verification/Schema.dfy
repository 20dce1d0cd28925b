/**
  Forms (src/interactions/elicitation.rs, src/interactions/schema.rs).

  A backend asks the user through a form. The adapter rewrites the form's schema before it shows it, and checks
  the answers against the schema when they come back.
 */
module Schema {
  import opened Prelude
  import opened Json

  const MAX_U64: int := 0xFFFF_FFFF_FFFF_FFFF
  const MIN_I64: int := -0x8000_0000_0000_0000
  const MAX_I64: int := 0x7FFF_FFFF_FFFF_FFFF

  // ---------------------------------------------------------------- validation

  predicate TypeFits(property: Value, v: Value) {
    var kind := At(property, "type");
    || (kind == Str("string") && v.Str?)
    || (kind == Str("integer") && v.Num? && MIN_I64 <= v.n <= MAX_I64)
    || (kind == Str("number") && v.Num?)
    || (kind == Str("boolean") && v.Bool?)
    || (kind == Str("array") && v.Arr? && forall item <- v.items :: item.Str?)
  }

  predicate OneOf(choices: Value, v: Value) {
    choices.Arr? ==> exists i :: 0 <= i < |choices.items| && At(choices.items[i], "const") == v
  }

  predicate Among(choices: Value, v: Value) { choices.Arr? ==> v in choices.items }

  predicate ChoiceFits(schema: Value, v: Value) {
    Among(At(schema, "enum"), v) && OneOf(At(schema, "oneOf"), v) && OneOf(At(schema, "anyOf"), v)
  }

  predicate IsCount(v: Value) { v.Num? && 0 <= v.n <= MAX_U64 }

  predicate SizeFits(schema: Value, low: string, high: string, count: nat) {
    && (IsCount(At(schema, low)) ==> count >= At(schema, low).n)
    && (IsCount(At(schema, high)) ==> count <= At(schema, high).n)
  }

  predicate RangeFits(schema: Value, n: int) {
    && (At(schema, "minimum").Num? ==> n >= At(schema, "minimum").n)
    && (At(schema, "maximum").Num? ==> n <= At(schema, "maximum").n)
  }

  predicate ItemsFit(property: Value, items: seq<Value>) {
    && SizeFits(property, "minItems", "maxItems", |items|)
    && (forall item <- items :: ChoiceFits(At(property, "items"), item))
    && (At(property, "uniqueItems") == Bool(true) ==> forall i, j | 0 <= i < j < |items| :: items[i] != items[j])
  }

  /** What an answer must satisfy apart from the choices of its property. */
  predicate FormFits(property: Value, v: Value) {
    && TypeFits(property, v)
    && (v.Str? ==> SizeFits(property, "minLength", "maxLength", |v.s|))
    && (v.Num? ==> RangeFits(property, v.n))
    && (v.Arr? ==> ItemsFit(property, v.items))
  }

  predicate Accepts(property: Value, v: Value) { FormFits(property, v) && ChoiceFits(property, v) }

  /** Missing content counts as no answers. */
  function Answers(content: Value): Option<map<string, Value>> {
    if content.Null? then Some(map[]) else if content.Obj? then Some(content.fields) else None
  }

  predicate RequiredGiven(schema: Value, answers: map<string, Value>) {
    At(schema, "required").Arr? ==>
      forall key <- At(schema, "required").items :: key.Str? && key.s in answers
  }

  predicate Validate(schema: Value, content: Value) {
    && Answers(content).Some?
    && At(schema, "properties").Obj?
    && var answers, properties := Answers(content).value, At(schema, "properties").fields;
       RequiredGiven(schema, answers) && forall key <- answers :: key in properties && Accepts(properties[key], answers[key])
  }

  // ---------------------------------------------------------------- normalisation

  predicate Legacy(property: Value) { At(property, "enumNames").Arr? && At(property, "enum").Arr? }

  predicate WellTitled(property: Value) {
    Legacy(property) ==> |At(property, "enumNames").items| == |At(property, "enum").items|
  }

  function Titled(values: seq<Value>, names: seq<Value>): (r: seq<Value>)
    requires |values| == |names|
    ensures |r| == |values| && forall i | 0 <= i < |r| :: At(r[i], "const") == values[i]
  {
    seq(|values|, i requires 0 <= i < |values| => Obj(map["const" := values[i], "title" := names[i]]))
  }

  function NormalizeProperty(property: Value): Value
    requires WellTitled(property)
  {
    if Legacy(property) then
      var oneOf := Arr(Titled(At(property, "enum").items, At(property, "enumNames").items));
      Obj((property.fields - {"enumNames", "enum"})["oneOf" := oneOf])
    else property
  }

  predicate Normal(schema: Value) {
    && At(schema, "type") == Str("object") && At(schema, "properties").Obj?
    && forall key <- At(schema, "properties").fields :: WellTitled(At(schema, "properties").fields[key])
  }

  function NormalizeSchema(schema: Value): (r: Option<Value>)
    ensures r.Some? <==> Normal(schema)
  {
    if Normal(schema) then
      var properties := At(schema, "properties").fields;
      Some(Obj(schema.fields["properties" := Obj(map key | key in properties :: NormalizeProperty(properties[key]))]))
    else None
  }

  /** A schema can be rewritten exactly if it is that of an object and every legacy list has a name for each value. */
  lemma NormalizedExactly(schema: Value)
    ensures NormalizeSchema(schema).Some?
            <==> && At(schema, "type") == Str("object") && At(schema, "properties").Obj?
                 && forall key <- At(schema, "properties").fields ::
                      var property := At(schema, "properties").fields[key];
                      At(property, "enum").Arr? && At(property, "enumNames").Arr?
                      ==> |At(property, "enum").items| == |At(property, "enumNames").items|
    ensures NormalizeSchema(schema).Some? ==>
              forall key: string :: key != "properties" ==> At(NormalizeSchema(schema).value, key) == At(schema, key)
  {
  }

  /** The loop over the properties, which are rewritten one by one. */
  method Normalize(schema: Value) returns (r: Option<Value>)
    ensures r == NormalizeSchema(schema)
  {
    if At(schema, "type") != Str("object") || !At(schema, "properties").Obj? {
      return None;
    }
    var original := At(schema, "properties").fields;
    var properties := original;
    var todo := original.Keys;
    while todo != {}
      invariant todo <= original.Keys == properties.Keys
      invariant forall key <- original :: key in todo || WellTitled(original[key])
      invariant forall key <- original ::
                  key in todo || (WellTitled(original[key]) && properties[key] == NormalizeProperty(original[key]))
      invariant forall key <- todo :: properties[key] == original[key]
      decreases |todo|
    {
      var key :| key in todo;
      todo := todo - {key};
      var property := properties[key];
      var names, values := At(property, "enumNames"), At(property, "enum");
      if names.Arr? && values.Arr? {
        if |names.items| != |values.items| {
          return None;
        }
        var fields := property.fields - {"enumNames"};
        fields := fields - {"enum"};
        fields := fields["oneOf" := Arr(Titled(values.items, names.items))];
        assert fields == (property.fields - {"enumNames", "enum"})["oneOf" := Arr(Titled(values.items, names.items))];
        properties := properties[key := Obj(fields)];
      }
    }
    assert properties == map key | key in original :: NormalizeProperty(original[key]);
    return Some(Obj(schema.fields["properties" := Obj(properties)]));
  }

  /** Other fields of a property stay. */
  lemma NormalizeLeaves(property: Value, key: string)
    requires WellTitled(property) && key != "enumNames" && key != "enum" && key != "oneOf"
    ensures At(NormalizeProperty(property), key) == At(property, key)
  {
  }

  /** The rewritten property asks for one of the legacy values, and no longer for one of an older `oneOf`. */
  lemma NormalizeAccepts(property: Value, v: Value)
    requires WellTitled(property)
    ensures Accepts(property, v)
            <==> Accepts(NormalizeProperty(property), v) && (Legacy(property) ==> OneOf(At(property, "oneOf"), v))
  {
    hide FormFits, Titled;
    if Legacy(property) {
      var after := NormalizeProperty(property);
      FormFitsLeft(property, v);
      NormalizeLeaves(property, "anyOf");
      var values, names := At(property, "enum").items, At(property, "enumNames").items;
      var titled := Titled(values, names);
      assert At(after, "enum") == Null && At(after, "oneOf") == Arr(titled);
      if v in values {
        var i :| 0 <= i < |values| && values[i] == v;
        assert At(titled[i], "const") == v;
      }
    }
  }

  lemma FormFitsLeft(property: Value, v: Value)
    requires WellTitled(property)
    ensures FormFits(NormalizeProperty(property), v) == FormFits(property, v)
  {
    hide NormalizeProperty, SizeFits, ChoiceFits;
    forall key | key != "enumNames" && key != "enum" && key != "oneOf"
      ensures At(NormalizeProperty(property), key) == At(property, key)
    {
      NormalizeLeaves(property, key);
    }
    SizesLeft(property);
  }

  lemma SizesLeft(property: Value)
    requires WellTitled(property)
    ensures forall n: nat :: SizeFits(NormalizeProperty(property), "minLength", "maxLength", n) == SizeFits(property, "minLength", "maxLength", n)
    ensures forall n: nat :: SizeFits(NormalizeProperty(property), "minItems", "maxItems", n) == SizeFits(property, "minItems", "maxItems", n)
  {
    NormalizeLeaves(property, "minLength");
    NormalizeLeaves(property, "maxLength");
    NormalizeLeaves(property, "minItems");
    NormalizeLeaves(property, "maxItems");
  }

  /** Every legacy value that the rewritten property accepts is also offered by the `oneOf` it had before. */
  ghost predicate Compatible(property: Value)
    requires WellTitled(property)
  {
    Legacy(property) ==>
      forall v <- At(property, "enum").items :: Accepts(NormalizeProperty(property), v) ==> OneOf(At(property, "oneOf"), v)
  }

  /** Every required key is a string that names a property which accepts something. */
  ghost predicate Fillable(schema: Value)
    requires At(schema, "properties").Obj?
  {
    At(schema, "required").Arr? ==>
      forall key <- At(schema, "required").items ::
        key.Str? && key.s in At(schema, "properties").fields && exists v :: Accepts(At(schema, "properties").fields[key.s], v)
  }

  /** What a property accepts, if anything. */
  ghost function Sample(property: Value): Value {
    if v :| Accepts(property, v) then v else Null
  }

  /** Some content satisfies a form exactly if all that it requires can be filled in. */
  lemma SatisfiableExactly(schema: Value)
    requires At(schema, "properties").Obj?
    ensures (exists content :: Validate(schema, content)) <==> Fillable(schema)
  {
    hide Accepts;
    var properties, required := At(schema, "properties").fields, At(schema, "required");
    if content :| Validate(schema, content) {
      forall key | required.Arr? && key in required.items
        ensures key.Str? && key.s in properties && exists v :: Accepts(properties[key.s], v)
      {
        assert Accepts(properties[key.s], Answers(content).value[key.s]);
      }
    }
    if Fillable(schema) {
      var content := FilledIn(schema);
      assert Validate(schema, content);
    }
  }

  lemma FilledIn(schema: Value) returns (content: Value)
    requires At(schema, "properties").Obj? && Fillable(schema)
    ensures Validate(schema, content)
  {
    hide Accepts;
    var properties, required := At(schema, "properties").fields, At(schema, "required");
    if required.Arr? {
      var answers := map key | key in properties && Str(key) in required.items :: Sample(properties[key]);
      forall key | key in answers ensures Accepts(properties[key], answers[key]) {
        assert Str(key) in required.items;
      }
      content := Obj(answers);
      forall key | key in required.items ensures key.Str? && key.s in answers {
        assert key == Str(key.s);
      }
    } else {
      content := Null;
    }
  }

  /** Normalisation never rejects what was accepted. */
  lemma NormalizeKeepsAccepted(schema: Value, content: Value)
    requires Normal(schema) && Validate(schema, content)
    ensures Validate(NormalizeSchema(schema).value, content)
  {
    hide Accepts, NormalizeProperty, WellTitled;
    var answers, properties := Answers(content).value, At(schema, "properties").fields;
    forall key | key in answers ensures Accepts(NormalizeProperty(properties[key]), answers[key]) {
      NormalizeAccepts(properties[key], answers[key]);
    }
  }

  lemma CompatibleKeepsRejected(schema: Value, content: Value)
    requires Normal(schema) && Validate(NormalizeSchema(schema).value, content)
    requires var properties := At(schema, "properties").fields; forall key <- properties :: Compatible(properties[key])
    ensures Validate(schema, content)
  {
    hide Accepts, NormalizeProperty, WellTitled, OneOf;
    var answers, properties := Answers(content).value, At(schema, "properties").fields;
    forall key | key in answers ensures key in properties && Accepts(properties[key], answers[key]) {
      assert Compatible(properties[key]);
      NormalizeAccepts(properties[key], answers[key]);
      if Legacy(properties[key]) {
        LegacyValues(properties[key], answers[key]);
      }
    }
  }

  lemma LegacyValues(property: Value, v: Value)
    requires WellTitled(property) && Legacy(property) && Accepts(NormalizeProperty(property), v)
    ensures v in At(property, "enum").items
  {
    var titled := At(NormalizeProperty(property), "oneOf");
    var i :| 0 <= i < |titled.items| && At(titled.items[i], "const") == v;
  }

  /** An answer that one property newly accepts makes a whole form that is newly accepted. */
  lemma IncompatibleChanges(schema: Value, key: string, v: Value, content: Value) returns (changed: Value)
    requires Normal(schema) && key in At(schema, "properties").fields && Legacy(At(schema, "properties").fields[key])
    requires var property := At(schema, "properties").fields[key];
             Accepts(NormalizeProperty(property), v) && !OneOf(At(property, "oneOf"), v)
    requires Validate(NormalizeSchema(schema).value, content)
    ensures Validate(NormalizeSchema(schema).value, changed) && !Validate(schema, changed)
  {
    hide Accepts, NormalizeProperty, WellTitled, OneOf;
    NormalizeAccepts(At(schema, "properties").fields[key], v);
    changed := Obj(Answers(content).value[key := v]);
    assert key in changed.fields && changed.fields[key] == v;
  }

  /**
    Rewriting a schema changes no verdict exactly if each rewritten property is compatible with the `oneOf`
    it already had, as every property without one is, or if nothing satisfies the form anyway, because it
    requires something that cannot be filled in.
   */
  lemma NormalizeExactly(schema: Value)
    requires Normal(schema)
    ensures var after := NormalizeSchema(schema).value;
            var properties := At(schema, "properties").fields;
            && (forall key <- properties :: !At(properties[key], "oneOf").Arr? ==> Compatible(properties[key]))
            && At(after, "properties").Obj?
            && ((forall content :: Validate(schema, content) <==> Validate(after, content))
                <==> (forall key <- properties :: Compatible(properties[key])) || !Fillable(after))
  {
    hide Validate, Compatible, Fillable, Accepts, NormalizeProperty;
    var after := NormalizeSchema(schema).value;
    var properties := At(schema, "properties").fields;
    SatisfiableExactly(after);
    forall key | key in properties && !At(properties[key], "oneOf").Arr? ensures Compatible(properties[key]) {
      WithoutOneOfCompatible(properties[key]);
    }
    forall content | Validate(schema, content) ensures Validate(after, content) {
      NormalizeKeepsAccepted(schema, content);
    }
    if forall key <- properties :: Compatible(properties[key]) {
      forall content | Validate(after, content) ensures Validate(schema, content) {
        CompatibleKeepsRejected(schema, content);
      }
    } else if content :| Validate(after, content) {
      var key :| key in properties && !Compatible(properties[key]);
      var v := IncompatibleValue(properties[key]);
      var changed := IncompatibleChanges(schema, key, v, content);
      assert Validate(after, changed) && !Validate(schema, changed);
    } else {
      assert forall content :: !Validate(after, content);
    }
  }

  lemma IncompatibleValue(property: Value) returns (v: Value)
    requires WellTitled(property) && !Compatible(property)
    ensures Legacy(property) && Accepts(NormalizeProperty(property), v) && !OneOf(At(property, "oneOf"), v)
  {
    v :| v in At(property, "enum").items && Accepts(NormalizeProperty(property), v) && !OneOf(At(property, "oneOf"), v);
  }

  lemma WithoutOneOfCompatible(property: Value)
    requires WellTitled(property) && !At(property, "oneOf").Arr?
    ensures Compatible(property)
  {
  }

  lemma LegacyAccepted(property: Value)
    requires property == Obj(map["type" := Str("string"), "enum" := Arr([Str("a")]), "enumNames" := Arr([Str("A")]), "oneOf" := Arr([])])
    ensures Legacy(property) && WellTitled(property) && Accepts(NormalizeProperty(property), Str("a")) && !OneOf(At(property, "oneOf"), Str("a"))
  {
    var after := NormalizeProperty(property);
    var titled := At(after, "oneOf");
    assert At(titled.items[0], "const") == Str("a");
    assert OneOf(titled, Str("a"));
    FormFitsLeft(property, Str("a"));
    NormalizeLeaves(property, "anyOf");
  }

  /** A form whose verdict does change: the older `oneOf` excluded a value that the legacy list offers. */
  lemma NormalizeCanChange()
    ensures exists schema, content :: Normal(schema) && !Validate(schema, content) && Validate(NormalizeSchema(schema).value, content)
  {
    var property := Obj(map["type" := Str("string"), "enum" := Arr([Str("a")]), "enumNames" := Arr([Str("A")]), "oneOf" := Arr([])]);
    var schema := Obj(map["type" := Str("object"), "properties" := Obj(map["x" := property])]);
    assert WellTitled(property) && At(schema, "properties").fields["x"] == property;
    LegacyAccepted(property);
    hide Accepts, NormalizeProperty, Validate;
    var changed := IncompatibleChanges(schema, "x", Str("a"), Null);
  }

  /** The rewritten property offers the legacy values under their names. */
  lemma TitlesKept(property: Value, i: nat)
    requires WellTitled(property) && Legacy(property) && i < |At(property, "enum").items|
    ensures var options := At(NormalizeProperty(property), "oneOf");
            && options.Arr? && |options.items| == |At(property, "enum").items|
            && At(options.items[i], "const") == At(property, "enum").items[i]
            && At(options.items[i], "title") == At(property, "enumNames").items[i]
            && At(NormalizeProperty(property), "enum") == Null && At(NormalizeProperty(property), "enumNames") == Null
  {
  }

  // ---------------------------------------------------------------- what a property accepts

  /** The value is one of the choices, of each kind that the schema gives. */
  predicate Chosen(schema: Value, v: Value) {
    && (At(schema, "enum").Arr? ==> v in At(schema, "enum").items)
    && (At(schema, "oneOf").Arr? ==> exists option <- At(schema, "oneOf").items :: At(option, "const") == v)
    && (At(schema, "anyOf").Arr? ==> exists option <- At(schema, "anyOf").items :: At(option, "const") == v)
  }

  /** A bound on a size counts if it is a whole number that a machine word can hold. */
  predicate Within(schema: Value, low: string, high: string, count: nat) {
    && (At(schema, low).Num? && 0 <= At(schema, low).n <= 0xFFFF_FFFF_FFFF_FFFF ==> At(schema, low).n <= count)
    && (At(schema, high).Num? && 0 <= At(schema, high).n <= 0xFFFF_FFFF_FFFF_FFFF ==> count <= At(schema, high).n)
  }

  lemma ChosenIs(schema: Value, v: Value)
    ensures ChoiceFits(schema, v) <==> Chosen(schema, v)
  {
    forall key ensures OneOf(At(schema, key), v)
                       <==> (At(schema, key).Arr? ==> exists option <- At(schema, key).items :: At(option, "const") == v)
    {
      OneOfIs(At(schema, key), v);
    }
  }

  lemma OneOfIs(choices: Value, v: Value)
    ensures OneOf(choices, v) <==> (choices.Arr? ==> exists option <- choices.items :: At(option, "const") == v)
  {
    if choices.Arr? {
      if option :| option in choices.items && At(option, "const") == v {
        var i :| 0 <= i < |choices.items| && choices.items[i] == option;
      }
    }
  }

  /** Numbers, integers of 64 bits, texts and booleans: the type, the bounds and the choices, and nothing else. */
  lemma ScalarAcceptedExactly(property: Value, v: Value)
    ensures At(property, "type") == Str("number") || At(property, "type") == Str("integer") ==>
              (Accepts(property, v)
               <==> && v.Num? && Chosen(property, v)
                    && (At(property, "minimum").Num? ==> At(property, "minimum").n <= v.n)
                    && (At(property, "maximum").Num? ==> v.n <= At(property, "maximum").n)
                    && (At(property, "type") == Str("integer") ==> -0x8000_0000_0000_0000 <= v.n <= 0x7FFF_FFFF_FFFF_FFFF))
    ensures At(property, "type") == Str("string") ==>
              (Accepts(property, v) <==> v.Str? && Chosen(property, v) && Within(property, "minLength", "maxLength", |v.s|))
    ensures At(property, "type") == Str("boolean") ==> (Accepts(property, v) <==> v.Bool? && Chosen(property, v))
    ensures At(property, "type") !in [Str("number"), Str("integer"), Str("string"), Str("boolean"), Str("array")] ==> !Accepts(property, v)
  {
    hide ChoiceFits, Chosen;
    ChosenIs(property, v);
  }

  /** Lists of texts: their number, a choice for each, and none twice if they have to be distinct. */
  lemma ListAcceptedExactly(property: Value, v: Value)
    requires At(property, "type") == Str("array")
    ensures Accepts(property, v)
            <==> && v.Arr? && Chosen(property, v) && Within(property, "minItems", "maxItems", |v.items|)
                 && (forall item <- v.items :: item.Str? && Chosen(At(property, "items"), item))
                 && (At(property, "uniqueItems") == Bool(true) ==> forall item <- v.items :: multiset(v.items)[item] == 1)
  {
    hide ChoiceFits, Chosen;
    ChosenIs(property, v);
    if v.Arr? {
      forall item | item in v.items ensures ChoiceFits(At(property, "items"), item) <==> Chosen(At(property, "items"), item) {
        ChosenIs(At(property, "items"), item);
      }
      OnceEach(v.items);
    }
  }

  lemma {:induction false} OnceEach(items: seq<Value>)
    ensures (forall i, j | 0 <= i < j < |items| :: items[i] != items[j]) <==> forall item <- items :: multiset(items)[item] == 1
  {
    if items != [] {
      var init, last := items[..|items| - 1], items[|items| - 1];
      assert items == init + [last];
      OnceEach(init);
      OnceMore(init, last);
      DifferentMore(init, last);
    }
  }

  lemma OnceMore(init: seq<Value>, last: Value)
    ensures (forall item <- init + [last] :: multiset(init + [last])[item] == 1)
            <==> last !in init && forall item <- init :: multiset(init)[item] == 1
  {
    var items := init + [last];
    assert forall item :: item in items <==> item in init || item == last;
    assert forall item <- init :: multiset(items)[item] == multiset(init)[item] + if item == last then 1 else 0;
    assert last in init ==> multiset(init)[last] >= 1;
    assert last !in init ==> multiset(items)[last] == 1;
    if forall item <- items :: multiset(items)[item] == 1 {
      forall item | item in init ensures multiset(init)[item] == 1 && item != last {
        assert item in items && multiset(init)[item] >= 1;
      }
    }
  }

  lemma DifferentMore(init: seq<Value>, last: Value)
    ensures (forall i, j | 0 <= i < j < |init + [last]| :: (init + [last])[i] != (init + [last])[j])
            <==> last !in init && forall i, j | 0 <= i < j < |init| :: init[i] != init[j]
  {
    var items := init + [last];
    assert items[|init|] == last && forall i | 0 <= i < |init| :: items[i] == init[i];
    if forall i, j | 0 <= i < j < |items| :: items[i] != items[j] {
      forall i | 0 <= i < |init| ensures init[i] != last {
        assert items[i] != items[|init|];
      }
      forall i, j | 0 <= i < j < |init| ensures init[i] != init[j] {
        assert items[i] != items[j];
      }
    }
  }

  /** No content is the empty content, and content that is no object is never accepted. */
  lemma NoContentIsEmpty(schema: Value, content: Value)
    ensures Validate(schema, Null) <==> Validate(schema, Obj(map[]))
    ensures !content.Null? && !content.Obj? ==> !Validate(schema, content)
  {
  }

  // ---------------------------------------------------------------- questions

  datatype Question = Question(id: string, choices: Option<seq<string>>)

  datatype Translation = Unsupported | Malformed | Asked(questions: seq<Question>)

  /** The labels of the options; none if some option has no label. */
  function Labels(options: seq<Value>): (r: Option<seq<string>>)
    ensures r.Some? <==> forall o <- options :: At(o, "label").Str?
    ensures r.Some? ==> |r.value| == |options|
  {
    if options == [] then Some([])
    else
      var rest := Labels(options[1..]);
      assert options == [options[0]] + options[1..];
      if At(options[0], "label").Str? && rest.Some? then Some([At(options[0], "label").s] + rest.value) else None
  }

  /** Choices bind the user unless there are none or another answer is invited. */
  function Choices(question: Value, labels: seq<string>): Option<seq<string>> {
    if labels != [] && At(question, "isOther") != Bool(true) then Some(labels) else None
  }

  function TrackOne(question: Value, taken: set<string>): Translation {
    var options := At(question, "options");
    var labels := if options.Arr? then Labels(options.items) else Some([]);
    if At(question, "isSecret") == Bool(true) then Unsupported
    else if !At(question, "id").Str? || At(question, "id").s in taken || !At(question, "question").Str? || labels.None? then Malformed
    else Asked([Question(At(question, "id").s, Choices(question, labels.value))])
  }

  function Ids(questions: seq<Question>): set<string> { set q | q in questions :: q.id }

  function Track(values: seq<Value>, done: seq<Question>): Translation
    decreases |values|
  {
    if values == [] then Asked(done)
    else
      match TrackOne(values[0], Ids(done))
      case Unsupported => Unsupported
      case Malformed => Malformed
      case Asked(one) => Track(values[1..], done + one)
  }

  method TranslateQuestions(params: Value) returns (r: Translation)
    ensures r == var questions := At(params, "questions");
                 if !questions.Arr? || |questions.items| == 0 || |questions.items| > 32 then Malformed
                 else Track(questions.items, [])
  {
    var questions := At(params, "questions");
    if !questions.Arr? || |questions.items| == 0 || |questions.items| > 32 {
      return Malformed;
    }
    var tracked: seq<Question> := [];
    var taken: set<string> := {};
    for i := 0 to |questions.items|
      invariant taken == Ids(tracked)
      invariant Track(questions.items, []) == Track(questions.items[i..], tracked)
    {
      var question := questions.items[i];
      assert questions.items[i..][1..] == questions.items[i + 1..];
      if At(question, "isSecret") == Bool(true) {
        return Unsupported;
      }
      if !At(question, "id").Str? || At(question, "id").s in taken || !At(question, "question").Str? {
        return Malformed;
      }
      var labels := Some([]);
      if At(question, "options").Arr? {
        labels := Labels(At(question, "options").items);
      }
      if labels.None? {
        return Malformed;
      }
      taken := taken + {At(question, "id").s};
      tracked := tracked + [Question(At(question, "id").s, Choices(question, labels.value))];
    }
    return Asked(tracked);
  }

  /** One question for each value, with distinct ids. */
  lemma {:induction false} TrackedDistinct(values: seq<Value>, done: seq<Question>)
    requires Track(values, done).Asked? && Distinct(done)
    ensures Distinct(Track(values, done).questions) && |Track(values, done).questions| == |done| + |values|
    decreases |values|
  {
    if values != [] {
      TrackedDistinct(values[1..], done + TrackOne(values[0], Ids(done)).questions);
    }
  }

  predicate Secret(v: Value) { At(v, "isSecret") == Bool(true) }

  /** A question that can be asked: not secret, with an id, a text, and labels for its options. */
  predicate Askable(v: Value) {
    && !Secret(v) && At(v, "id").Str? && At(v, "question").Str?
    && (At(v, "options").Arr? ==> forall o <- At(v, "options").items :: At(o, "label").Str?)
  }

  /** The questions can be asked, and no id occurs twice or is taken. */
  predicate AllAskable(values: seq<Value>, taken: set<string>) {
    && (forall v <- values :: Askable(v) && At(v, "id").s !in taken)
    && forall i, j | 0 <= i < j < |values| :: At(values[i], "id") != At(values[j], "id")
  }

  /** The user is bound to the labels of a question's options unless it has none or invites another answer. */
  predicate Asks(q: Question, v: Value) {
    && Str(q.id) == At(v, "id")
    && (q.choices.Some? <==> At(v, "options").Arr? && At(v, "options").items != [] && At(v, "isOther") != Bool(true))
    && (q.choices.Some? ==> |q.choices.value| == |At(v, "options").items|
                            && forall i | 0 <= i < |q.choices.value| :: Str(q.choices.value[i]) == At(At(v, "options").items[i], "label"))
  }

  lemma {:induction false} LabelsInOrder(options: seq<Value>)
    requires Labels(options).Some?
    ensures |Labels(options).value| == |options| && forall i | 0 <= i < |options| :: Str(Labels(options).value[i]) == At(options[i], "label")
  {
    if options != [] {
      LabelsInOrder(options[1..]);
    }
  }

  lemma OneTracked(v: Value, taken: set<string>)
    ensures TrackOne(v, taken).Unsupported? <==> Secret(v)
    ensures TrackOne(v, taken).Asked? <==> Askable(v) && At(v, "id").s !in taken
    ensures TrackOne(v, taken).Asked? ==> |TrackOne(v, taken).questions| == 1 && Asks(TrackOne(v, taken).questions[0], v)
  {
    if At(v, "options").Arr? && Labels(At(v, "options").items).Some? {
      LabelsInOrder(At(v, "options").items);
    }
  }

  lemma AllAskableCons(values: seq<Value>, taken: set<string>)
    requires values != []
    ensures AllAskable(values, taken)
            <==> Askable(values[0]) && At(values[0], "id").s !in taken && AllAskable(values[1..], taken + {At(values[0], "id").s})
  {
    var rest := values[1..];
    assert values == [values[0]] + rest;
    assert forall i | 0 <= i < |rest| :: rest[i] == values[i + 1];
    if Askable(values[0]) && At(values[0], "id").s !in taken && AllAskable(rest, taken + {At(values[0], "id").s}) {
      forall i, j | 0 <= i < j < |values| ensures At(values[i], "id") != At(values[j], "id") {
        assert values[j] == rest[j - 1] && rest[j - 1] in rest;
        assert i > 0 ==> values[i] == rest[i - 1];
      }
    }
    if AllAskable(values, taken) {
      forall v | v in rest ensures At(v, "id").s != At(values[0], "id").s {
        var i :| 0 <= i < |rest| && rest[i] == v;
        assert At(values[0], "id") != At(values[i + 1], "id");
      }
    }
  }

  /**
    When questions can be put to the user: exactly if each can be asked and no id occurs twice; each is then asked in
    its place, with its labels as the choices. They are left to somebody else exactly if the first that cannot be
    asked is secret.
   */
  lemma {:induction false} TrackedExactly(values: seq<Value>, done: seq<Question>)
    ensures Track(values, done).Asked? <==> AllAskable(values, Ids(done))
    ensures Track(values, done).Asked? ==>
              var questions := Track(values, done).questions;
              && |questions| == |done| + |values| && done <= questions
              && forall i | 0 <= i < |values| :: Asks(questions[|done| + i], values[i])
    ensures Track(values, done).Unsupported?
            <==> exists k :: 0 <= k < |values| && Secret(values[k]) && AllAskable(values[..k], Ids(done))
    decreases |values|
  {
    hide TrackOne, Askable, Asks, AllAskable, Secret;
    if values == [] {
      NothingAskable(Ids(done));
    } else {
      OneTracked(values[0], Ids(done));
      AllAskableCons(values, Ids(done));
      NothingAskable(Ids(done));
      assert values[..0] == [];
      if TrackOne(values[0], Ids(done)).Asked? {
        var next := done + TrackOne(values[0], Ids(done)).questions;
        AskedIds(done, values[0]);
        TrackedExactly(values[1..], next);
        NotSecret(values[0]);
        forall k | 0 <= k < |values| - 1 ensures AllAskable(values[..k + 1], Ids(done)) <==> AllAskable(values[1..][..k], Ids(next)) {
          AllAskableCons(values[..k + 1], Ids(done));
          assert values[..k + 1][1..] == values[1..][..k];
        }
        if Track(values, done).Unsupported? {
          var k :| 0 <= k < |values[1..]| && Secret(values[1..][k]) && AllAskable(values[1..][..k], Ids(next));
          assert Secret(values[k + 1]) && AllAskable(values[..k + 1], Ids(done));
        }
        if k :| 0 <= k < |values| && Secret(values[k]) && AllAskable(values[..k], Ids(done)) {
          assert k > 0 && values[k] == values[1..][k - 1];
        }
      } else {
        if k :| 0 < k < |values| && Secret(values[k]) && AllAskable(values[..k], Ids(done)) {
          AllAskableCons(values[..k], Ids(done));
        }
      }
    }
  }

  lemma NotSecret(v: Value)
    ensures Askable(v) ==> !Secret(v)
  {
  }

  lemma NothingAskable(taken: set<string>)
    ensures AllAskable([], taken)
  {
  }

  lemma AskedIds(done: seq<Question>, v: Value)
    requires TrackOne(v, Ids(done)).Asked?
    ensures Ids(done + TrackOne(v, Ids(done)).questions) == Ids(done) + {At(v, "id").s}
  {
    var one := TrackOne(v, Ids(done)).questions;
    assert one[0].id == At(v, "id").s;
    assert one[0] in done + one;
  }

  ghost predicate Distinct(questions: seq<Question>) {
    forall i, j | 0 <= i < j < |questions| :: questions[i].id != questions[j].id
  }

  function Strings(items: seq<string>): (r: seq<Value>)
    ensures |r| == |items| && forall i | 0 <= i < |items| :: r[i] == Str(items[i])
  {
    seq(|items|, i requires 0 <= i < |items| => Str(items[i]))
  }

  function PropertyOf(q: Question): Value {
    if q.choices.Some? then Obj(map["type" := Str("string"), "enum" := Arr(Strings(q.choices.value))])
    else Obj(map["type" := Str("string")])
  }

  /** The form that the client is shown: a required string for each question. */
  ghost function FormOf(questions: seq<Question>): Value
    requires Distinct(questions)
  {
    Obj(map[
      "type" := Str("object"),
      "properties" := Obj(map i | 0 <= i < |questions| :: questions[i].id := PropertyOf(questions[i])),
      "required" := Arr(seq(|questions|, i requires 0 <= i < |questions| => Str(questions[i].id)))
    ])
  }

  predicate Answered(q: Question, content: map<string, Value>) {
    && q.id in content && content[q.id].Str?
    && (q.choices.Some? ==> content[q.id].s in q.choices.value)
  }

  function AnswerTo(q: Question, content: map<string, Value>): Value
    requires q.id in content
  {
    Obj(map["answers" := Arr([content[q.id]])])
  }

  /** Accepting answers: one for each question and no more. */
  method ResolveQuestions(questions: seq<Question>, content: map<string, Value>) returns (r: Option<map<string, Value>>)
    ensures r.Some? <==> |content| == |questions| && forall q <- questions :: Answered(q, content)
    ensures r.Some? ==> r.value.Keys == Ids(questions)
                        && forall q <- questions :: q.id in content && r.value[q.id] == Obj(map["answers" := Arr([content[q.id]])])
  {
    if |content| != |questions| {
      return None;
    }
    var answers: map<string, Value> := map[];
    for i := 0 to |questions|
      invariant forall q <- questions[..i] :: Answered(q, content)
      invariant answers.Keys == Ids(questions[..i])
      invariant forall q <- questions[..i] :: answers[q.id] == AnswerTo(q, content)
    {
      var question := questions[i];
      assert questions[..i + 1] == questions[..i] + [question] && question in questions;
      if question.id !in content || !content[question.id].Str? {
        return None;
      }
      if question.choices.Some? && content[question.id].s !in question.choices.value {
        return None;
      }
      answers := answers[question.id := AnswerTo(question, content)];
    }
    assert questions[..|questions|] == questions;
    return Some(answers);
  }

  lemma PropertyAccepts(q: Question, v: Value)
    ensures Accepts(PropertyOf(q), v) <==> v.Str? && (q.choices.Some? ==> v.s in q.choices.value)
  {
    var property := PropertyOf(q);
    assert At(property, "oneOf") == Null && At(property, "anyOf") == Null;
    assert At(property, "minLength") == Null && At(property, "maxLength") == Null;
    if v.Str? && q.choices.Some? {
      if v.s in q.choices.value {
        var i :| 0 <= i < |q.choices.value| && q.choices.value[i] == v.s;
        assert Strings(q.choices.value)[i] == v;
      }
    }
  }

  lemma {:induction false} DistinctIds(questions: seq<Question>)
    requires Distinct(questions)
    ensures |Ids(questions)| == |questions|
  {
    if questions != [] {
      var last := |questions| - 1;
      DistinctIds(questions[..last]);
      assert questions == questions[..last] + [questions[last]];
      assert Ids(questions) == Ids(questions[..last]) + {questions[last].id};
    }
  }

  lemma SameSize(a: set<string>, b: set<string>)
    requires a <= b && |a| == |b|
    ensures a == b
  {
    assert |b - a| == |b| - |a|;
  }

  /** The parts of the form, one question at a time. */
  lemma FormParts(questions: seq<Question>, i: nat)
    requires Distinct(questions) && i < |questions|
    ensures var form := FormOf(questions);
            var properties := At(form, "properties").fields;
            && properties.Keys == Ids(questions)
            && properties[questions[i].id] == PropertyOf(questions[i])
            && At(form, "required").items[i] == Str(questions[i].id)
  {
    hide PropertyOf;
  }

  lemma FittingAnswersAccepted(questions: seq<Question>, content: map<string, Value>)
    requires Distinct(questions) && Validate(FormOf(questions), Obj(content))
    ensures |content| == |questions| && forall q <- questions :: Answered(q, content)
  {
    hide Accepts, PropertyOf, FormOf;
    var form := FormOf(questions);
    FormShape(questions);
    forall i | 0 <= i < |questions| ensures Answered(questions[i], content) && questions[i].id in content {
      FormParts(questions, i);
      assert At(form, "required").items[i] in At(form, "required").items;
      PropertyAccepts(questions[i], content[questions[i].id]);
    }
    assert content.Keys == Ids(questions);
    DistinctIds(questions);
    assert |content| == |content.Keys|;
  }

  lemma AcceptedAnswersFit(questions: seq<Question>, content: map<string, Value>)
    requires Distinct(questions) && |content| == |questions| && forall q <- questions :: Answered(q, content)
    ensures Validate(FormOf(questions), Obj(content))
  {
    hide Accepts, PropertyOf, FormOf;
    var form := FormOf(questions);
    DistinctIds(questions);
    assert |content| == |content.Keys|;
    SameSize(Ids(questions), content.Keys);
    FormShape(questions);
    forall i | 0 <= i < |questions|
      ensures At(form, "required").items[i] == Str(questions[i].id) && questions[i].id in content
      ensures Accepts(At(form, "properties").fields[questions[i].id], content[questions[i].id])
    {
      assert Answered(questions[i], content);
      FormParts(questions, i);
      PropertyAccepts(questions[i], content[questions[i].id]);
    }
    forall key | key in content
      ensures key in At(form, "properties").fields && Accepts(At(form, "properties").fields[key], content[key])
    {
      var q :| q in questions && q.id == key;
    }
  }

  lemma FormShape(questions: seq<Question>)
    requires Distinct(questions)
    ensures At(FormOf(questions), "properties").Obj? && At(FormOf(questions), "properties").fields.Keys == Ids(questions)
    ensures At(FormOf(questions), "required").Arr? && |At(FormOf(questions), "required").items| == |questions|
  {
    hide PropertyOf;
  }

  /** The adapter accepts exactly the answers that fit the form it showed. */
  lemma AnswersFitForm(questions: seq<Question>, content: map<string, Value>)
    requires Distinct(questions)
    ensures (|content| == |questions| && forall q <- questions :: Answered(q, content))
            <==> Validate(FormOf(questions), Obj(content))
  {
    hide Validate, Answered, FormOf;
    if Validate(FormOf(questions), Obj(content)) {
      FittingAnswersAccepted(questions, content);
    }
    if |content| == |questions| && forall q <- questions :: Answered(q, content) {
      AcceptedAnswersFit(questions, content);
    }
  }
}

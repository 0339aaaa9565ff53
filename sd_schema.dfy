/**
 The parameter schema of the image-generation panel: the static field
 registry, the model registry, the per-model field filter, the model lookup
 and the construction of a parameter set with one entry per field.
 */
module SdSchema {
  import opened JsValue

  /** Display strings. Localised strings are opaque identifiers. */
  datatype Label = Localized(id: string) | Literal(text: string) | PleaseInput(subject: Label)

  /** The field's `type`: "text", "textarea", "select" or "number". */
  datatype Kind = Text | Textarea | Select | Number

  /** One entry of a select field's `options`. */
  datatype Choice = Choice(name: Label, value: string)

  /** One entry of the field registry. An absent `default` is `Undefined`;
      an absent `required` is false; `support` is the optional allow-list
      of model names. */
  datatype Field = Field(
    name: Label,
    key: string,
    kind: Kind,
    defaultValue: Value,
    placeholder: Option<Label>,
    required: bool,
    options: seq<Choice>,
    min: Option<real>,
    max: Option<real>,
    step: Option<real>,
    sub: Option<Label>,
    support: Option<seq<string>>)

  /** A parameter set: field key to current value. */
  type ParamSet = Dict

  /** An entry of the model registry. Its `params` member is the closure
      `data => kolorsCommonParams(filterTag, data)`; `filterTag` is the
      literal the closure passes, which need not be `value`. */
  datatype ModelDesc = ModelDesc(name: string, value: string, filterTag: string) {
    /** The `{name, value}` part the store keeps as its current model. */
    function Ref(): ModelRef {
      ModelRef(name, value)
    }
  }

  datatype ModelRef = ModelRef(name: string, value: string)

  /** The field registry `params`. */
  function Params(): seq<Field> {
    [ Field(Localized("SdPanel.Prompt"), "prompt", Textarea, Undefined,
            Some(PleaseInput(Localized("SdPanel.Prompt"))), true, [],
            None, None, None, None, None),
      Field(Localized("SdPanel.NegativePrompt"), "negative_prompt", Textarea, Undefined,
            Some(PleaseInput(Localized("SdPanel.NegativePrompt"))), false, [],
            None, None, None, None, None),
      Field(Localized("SdPanel.ImageSize"), "image_size", Select, Str("1024x1024"),
            None, false,
            [ Choice(Literal("1024x1024 (1:1)"), "1024x1024"),
              Choice(Literal("960x1280 (3:4)"), "960x1280"),
              Choice(Literal("768x1024 (3:4)"), "768x1024"),
              Choice(Literal("720x1440 (1:2)"), "720x1440"),
              Choice(Literal("720x1280 (9:16)"), "720x1280") ],
            None, None, None, None, None),
      Field(Localized("SdPanel.NumInferenceSteps"), "num_inference_steps", Number, Num(20.0),
            None, false, [],
            Some(1.0), Some(100.0), None, Some(Localized("SdPanel.NumInferenceStepsSub")), None),
      Field(Localized("SdPanel.GuidanceScale"), "guidance_scale", Number, Num(7.5),
            None, false, [],
            Some(0.0), Some(20.0), Some(0.1), Some(Localized("SdPanel.GuidanceScaleSub")), None),
      Field(Literal("Seed"), "seed", Number, Num(0.0),
            None, false, [],
            Some(0.0), Some(9999999999.0), None, Some(Localized("SdPanel.SeedSub")), None) ]
  }

  /** The model registry `models`. */
  function Models(): (r: seq<ModelDesc>)
    ensures |r| >= 1
    ensures forall i, j | 0 <= i < j < |r| :: r[i].value != r[j].value
  {
    [ ModelDesc("TTG Image", "Kwai-Kolors/Kolors", "kolors") ]
  }

  function KeysOf(columns: seq<Field>): set<string> {
    set c | c in columns :: c.key
  }

  predicate DistinctKeys(columns: seq<Field>) {
    forall i, j | 0 <= i < j < |columns| :: columns[i].key != columns[j].key
  }

  /** `a` is `b` with some elements dropped, the rest in their order. */
  ghost predicate IsSubsequence<T>(a: seq<T>, b: seq<T>)
    decreases |b|
  {
    if a == [] then true
    else if b == [] then false
    else (a[0] == b[0] && IsSubsequence(a[1..], b[1..])) || IsSubsequence(a, b[1..])
  }

  /** The filter condition `!(item.support && !item.support.includes(model))`. */
  predicate Supports(f: Field, model: string) {
    f.support.None? || model in f.support.value
  }

  /** `fields.filter(...)` with the condition above. */
  function Filter(fields: seq<Field>, model: string): seq<Field> {
    if fields == [] then []
    else if Supports(fields[0], model) then [fields[0]] + Filter(fields[1..], model)
    else Filter(fields[1..], model)
  }

  /** The filter keeps a field exactly when the field supports the model. */
  lemma {:induction false} FilterKeepsSupported(fields: seq<Field>, model: string)
    ensures forall f :: f in Filter(fields, model) <==> f in fields && Supports(f, model)
  {
    if fields != [] {
      FilterKeepsSupported(fields[1..], model);
      assert fields == [fields[0]] + fields[1..];
    }
  }

  /** The filter drops fields but keeps the order of the rest. */
  lemma {:induction false} FilterIsSubsequence(fields: seq<Field>, model: string)
    ensures IsSubsequence(Filter(fields, model), fields)
  {
    if fields != [] {
      FilterIsSubsequence(fields[1..], model);
      var rest := Filter(fields[1..], model);
      if Supports(fields[0], model) {
        assert ([fields[0]] + rest)[1..] == rest;
      }
    }
  }

  /** `kolorsCommonParams(model, data)`: `data` is not consulted. */
  function CommonParams(model: string, data: ParamSet): seq<Field> {
    Filter(Params(), model)
  }

  /** `m.params(data)` for a registry entry. */
  function FieldsFor(m: ModelDesc, data: ParamSet): seq<Field> {
    CommonParams(m.filterTag, data)
  }

  /** A filter keeps every field when no field declares an allow-list. */
  lemma {:induction false} FilterWithoutSupportKeepsAll(fields: seq<Field>, model: string)
    requires forall i | 0 <= i < |fields| :: fields[i].support.None?
    ensures Filter(fields, model) == fields
  {
    if fields != [] {
      FilterWithoutSupportKeepsAll(fields[1..], model);
    }
  }

  /** No registry field declares `support`, so every model, whatever literal
      its closure passes, sees the whole registry. */
  lemma CommonParamsIsWholeRegistry(model: string, data: ParamSet)
    ensures CommonParams(model, data) == Params()
    ensures forall m | m in Models() :: FieldsFor(m, data) == Params()
  {
    FilterWithoutSupportKeepsAll(Params(), model);
    forall m | m in Models() ensures FieldsFor(m, data) == Params() {
      FilterWithoutSupportKeepsAll(Params(), m.filterTag);
    }
  }

  /** `registry.find(m => m.value === value)`. */
  function FindModel(registry: seq<ModelDesc>, value: string): (r: Option<ModelDesc>)
    ensures r.None? <==> forall i | 0 <= i < |registry| :: registry[i].value != value
    ensures r.Some? ==> exists i | 0 <= i < |registry| ::
              registry[i] == r.value && registry[i].value == value
              && forall j | 0 <= j < i :: registry[j].value != value
  {
    if registry == [] then None
    else if registry[0].value == value then Some(registry[0])
    else
      var r := FindModel(registry[1..], value);
      assert r.Some? ==> exists i | 1 <= i < |registry| ::
               registry[i] == r.value && registry[i].value == value
               && forall j | 0 <= j < i :: registry[j].value != value
        by {
          if r.Some? {
            var i :| 0 <= i < |registry[1..]| && registry[1..][i] == r.value && registry[1..][i].value == value
                     && forall j | 0 <= j < i :: registry[1..][j].value != value;
            assert registry[i + 1] == r.value;
            assert forall j | 0 <= j < i + 1 :: registry[j].value != value by {
              forall j | 0 <= j < i + 1 ensures registry[j].value != value {
                if j > 0 { assert registry[j] == registry[1..][j - 1]; }
              }
            }
          }
        }
      r
  }

  /** `models.find(m => m.value === model.value)?.params(data) || []`. */
  function GetParams(model: ModelRef, data: ParamSet): (r: seq<Field>)
    ensures forall m | m in Models() && m.value == model.value :: r == FieldsFor(m, data)
    ensures (forall m | m in Models() :: m.value != model.value) ==> r == []
  {
    var ms := Models();
    assert ms == [ms[0]];
    match FindModel(ms, model.value)
    case Some(m) => FieldsFor(m, data)
    case None => []
  }

  /** Fields whose value `clearText` resets. */
  predicate Clears(k: Kind) {
    k.Text? || k.Textarea? || k.Number?
  }

  /** Whether the existing value of `item` is consulted. */
  predicate KeepsData(item: Field, clearText: bool) {
    !(clearText && Clears(item.kind))
  }

  /** The value one iteration of `getModelParamBasicData` writes for `item`. */
  function Entry(item: Field, data: ParamSet, clearText: bool): (v: Value)
    ensures !IsNullish(v)
    ensures (KeepsData(item, clearText) && !IsNullish(Get(data, item.key)))
              ==> v == Get(data, item.key)
    ensures ((!KeepsData(item, clearText) || IsNullish(Get(data, item.key)))
             && !IsNullish(item.defaultValue))
              ==> v == item.defaultValue
    ensures ((!KeepsData(item, clearText) || IsNullish(Get(data, item.key)))
             && IsNullish(item.defaultValue))
              ==> v == Str("")
  {
    if clearText && Clears(item.kind) then Coalesce(item.defaultValue, Str(""))
    else Coalesce(Coalesce(Get(data, item.key), item.defaultValue), Str(""))
  }

  /** The dictionary `getModelParamBasicData` builds: the entries of
      `columns` written in order, so a later column overwrites an earlier
      one with the same key. */
  function BasicData(columns: seq<Field>, data: ParamSet, clearText: bool): (r: ParamSet)
    ensures r.Keys == KeysOf(columns)
    decreases |columns|
  {
    if columns == [] then map[]
    else
      var init, last := columns[..|columns| - 1], columns[|columns| - 1];
      assert columns == init + [last];
      BasicData(init, data, clearText)[last.key := Entry(last, data, clearText)]
  }

  /** The imperative `forEach` that builds `newParams`. */
  method GetModelParamBasicData(columns: seq<Field>, data: ParamSet, clearText: bool)
    returns (newParams: ParamSet)
    ensures newParams == BasicData(columns, data, clearText)
    ensures newParams.Keys == KeysOf(columns)
  {
    newParams := map[];
    for i := 0 to |columns|
      invariant newParams == BasicData(columns[..i], data, clearText)
    {
      var item := columns[i];
      if clearText && Clears(item.kind) {
        newParams := newParams[item.key := Coalesce(item.defaultValue, Str(""))];
      } else {
        newParams := newParams[item.key := Coalesce(Coalesce(Get(data, item.key), item.defaultValue), Str(""))];
      }
      assert columns[..i + 1][..i] == columns[..i];
    }
    assert columns[..|columns|] == columns;
  }

  /** A column's key holds that column's entry unless a later column
      reuses the key. */
  lemma {:induction false} BasicDataAt(columns: seq<Field>, data: ParamSet, clearText: bool, i: nat)
    requires i < |columns|
    requires forall j | i < j < |columns| :: columns[j].key != columns[i].key
    ensures columns[i].key in BasicData(columns, data, clearText)
    ensures BasicData(columns, data, clearText)[columns[i].key] == Entry(columns[i], data, clearText)
  {
    var init := columns[..|columns| - 1];
    if i < |columns| - 1 {
      BasicDataAt(init, data, clearText, i);
    }
  }

  /** With distinct keys: one entry per column, each the column's entry. */
  lemma BasicDataValues(columns: seq<Field>, data: ParamSet, clearText: bool)
    requires DistinctKeys(columns)
    ensures |BasicData(columns, data, clearText)| == |columns|
    ensures forall i | 0 <= i < |columns| ::
              columns[i].key in BasicData(columns, data, clearText)
              && BasicData(columns, data, clearText)[columns[i].key] == Entry(columns[i], data, clearText)
  {
    BasicDataSize(columns, data, clearText);
    forall i | 0 <= i < |columns|
      ensures columns[i].key in BasicData(columns, data, clearText)
      ensures BasicData(columns, data, clearText)[columns[i].key] == Entry(columns[i], data, clearText)
    {
      BasicDataAt(columns, data, clearText, i);
    }
  }

  lemma {:induction false} BasicDataSize(columns: seq<Field>, data: ParamSet, clearText: bool)
    requires DistinctKeys(columns)
    ensures |BasicData(columns, data, clearText)| == |columns|
  {
    if columns != [] {
      var init, last := columns[..|columns| - 1], columns[|columns| - 1];
      BasicDataSize(init, data, clearText);
      assert last.key !in KeysOf(init) by {
        forall c | c in init ensures c.key != last.key {
          var j :| 0 <= j < |init| && init[j] == c;
          assert columns[j] == c;
        }
      }
    }
  }

  /** The registry's keys are pairwise distinct. */
  lemma RegistryKeysDistinct()
    ensures DistinctKeys(Params())
  {
    var p := Params();
    assert p[0].key == "prompt" && p[1].key == "negative_prompt" && p[2].key == "image_size";
    assert p[3].key == "num_inference_steps" && p[4].key == "guidance_scale" && p[5].key == "seed";
  }
}

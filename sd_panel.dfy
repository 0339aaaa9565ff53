/**
 The state logic of the panel: a field edit, a model switch, and the value
 a number control shows. Rendering is not modelled.
 */
module SdPanel {
  import opened JsValue
  import opened SdSchema
  import opened SdStore

  /** `{...params, [field]: val}`. */
  function ValueChange(params: ParamSet, field: string, val: Value): (r: ParamSet)
    ensures field in r && r[field] == val
    ensures r.Keys == params.Keys + {field}
    ensures forall k | k in params && k != field :: r[k] == params[k]
  {
    params[field := val]
  }

  /** `handleValueChange`: the store's parameter set gets the edit. */
  method HandleValueChange(store: Store, field: string, val: Value)
    requires store.Valid()
    modifies store
    ensures store.Valid()
    ensures store.currentParams == ValueChange(old(store.currentParams), field, val)
    ensures store.currentModel == old(store.currentModel)
    ensures store.draw == old(store.draw) && store.currentId == old(store.currentId)
  {
    store.SetCurrentParams(ValueChange(store.currentParams, field, val));
  }

  /** `handleModelChange`: select the model, then rebuild the parameter set
      from its fields, keeping existing values (no `clearText`). */
  method HandleModelChange(store: Store, model: ModelDesc)
    requires store.Valid()
    modifies store
    ensures store.Valid()
    ensures store.currentModel == model.Ref()
    ensures store.currentParams == BasicData(FieldsFor(model, map[]), old(store.currentParams), false)
    ensures store.currentParams.Keys == KeysOf(FieldsFor(model, map[]))
    ensures forall f | f in FieldsFor(model, map[]) && !IsNullish(Get(old(store.currentParams), f.key)) ::
              store.currentParams[f.key] == old(store.currentParams)[f.key]
    ensures store.draw == old(store.draw) && store.currentId == old(store.currentId)
  {
    var params := store.currentParams;
    store.SetCurrentModel(model.Ref());
    var columns := FieldsFor(model, map[]);
    var rebuilt := GetModelParamBasicData(columns, params, false);
    ModelFieldsDistinct(model, map[]);
    RebuildKeepsValues(columns, params);
    store.SetCurrentParams(rebuilt);
  }

  /** Rebuilding a parameter set over columns with distinct keys, without
      `clearText`: exactly the columns' keys, a key with a non-nullish value
      keeps it, every other key holds the field's default, or "" when it
      declares none. */
  lemma RebuildKeepsValues(cols: seq<Field>, params: ParamSet)
    requires DistinctKeys(cols)
    ensures BasicData(cols, params, false).Keys == KeysOf(cols)
    ensures forall f | f in cols ::
              && f.key in BasicData(cols, params, false)
              && (!IsNullish(Get(params, f.key)) ==> BasicData(cols, params, false)[f.key] == params[f.key])
              && (IsNullish(Get(params, f.key))
                  ==> BasicData(cols, params, false)[f.key] == Coalesce(f.defaultValue, Str("")))
  {
    BasicDataValues(cols, params, false);
    forall f | f in cols
      ensures && f.key in BasicData(cols, params, false)
              && (!IsNullish(Get(params, f.key)) ==> BasicData(cols, params, false)[f.key] == params[f.key])
              && (IsNullish(Get(params, f.key))
                  ==> BasicData(cols, params, false)[f.key] == Coalesce(f.defaultValue, Str("")))
    {
      var i :| 0 <= i < |cols| && cols[i] == f;
    }
  }

  /** Every model's field list has distinct keys. */
  lemma ModelFieldsDistinct(model: ModelDesc, data: ParamSet)
    ensures DistinctKeys(FieldsFor(model, data))
  {
    CommonParamsIsWholeRegistry(model.filterTag, data);
    RegistryKeysDistinct();
  }

  /** The value a number control shows: `data[key] ?? default ?? 0`. */
  function NumberDisplay(item: Field, data: ParamSet): (v: Value)
    ensures !IsNullish(v)
    ensures !IsNullish(Get(data, item.key)) ==> v == Get(data, item.key)
    ensures (IsNullish(Get(data, item.key)) && !IsNullish(item.defaultValue)) ==> v == item.defaultValue
    ensures (IsNullish(Get(data, item.key)) && IsNullish(item.defaultValue)) ==> v == Num(0.0)
  {
    Coalesce(Coalesce(Get(data, item.key), item.defaultValue), Num(0.0))
  }

  /** A number control parses its input as a fraction when its step is
      truthy and below 1, otherwise as an integer. */
  predicate ParsesFraction(item: Field) {
    item.step.Some? && item.step.value != 0.0 && item.step.value < 1.0
  }

  /** In the registry only the guidance scale takes fractional input. */
  lemma OnlyGuidanceScaleIsFractional()
    ensures forall i | 0 <= i < |Params()| ::
              ParsesFraction(Params()[i]) <==> Params()[i].key == "guidance_scale"
  {
    var p := Params();
    assert ParsesFraction(p[4]);
    assert !ParsesFraction(p[0]) && !ParsesFraction(p[1]) && !ParsesFraction(p[2]);
    assert !ParsesFraction(p[3]) && !ParsesFraction(p[5]);
  }
}

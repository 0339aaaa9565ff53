# Image-generation panel and draw-job store, modelled in Dafny

This project models the core of an image-generation panel. The panel has
four parts:

- a static registry of parameter fields and a registry of models;
- a per-model field filter and a model lookup;
- the construction of a parameter set with exactly one entry per field;
- a persisted store of draw jobs.

A submitted job is prepended to the store's list in state `running`. The
store dispatches it to the SiliconFlow image endpoint. When the response
arrives, the job is overwritten in place, matched by id, with a terminal
`success` or `error` record. A secondary counter advances once when the job
is submitted and once more when it completes.

Modules, leaf first:

- `JsValue` (`js_value.dfy`): the JavaScript values a parameter can hold
  (`undefined`, `null`, `NaN`, numbers, strings), truthiness, `??` and `||`,
  and lookup of a missing key as `undefined`.
- `SdSchema` (`sd_schema.dfy`): the field registry `params`, the model
  registry `models`, the filter behind `kolorsCommonParams`, `getParams`,
  and `getModelParamBasicData`. That last one is an imperative loop
  (`GetModelParamBasicData`) proved against the function `BasicData`.
- `SdRequest` (`sd_request.dfy`): three rules taken out of
  `siliconFlowRequestCall`:
  - endpoint and credential resolution;
  - headers and request-body construction, each written as a sequence of
    conditional updates;
  - the classification of a response into the terminal job record
    (`Settle`).
- `SdStore` (`sd_store.dfy`): the store as a class. It has the fields
  `currentId`, `draw`, `currentModel` and `currentParams`, and one method per
  store operation. `SendTask` is the synchronous part of `sendTask`, up to
  `fetch`. `FinishRequest` is the continuation after `fetch`: one
  `updateDraw` and one `getNextId` for every outcome.
- `SdPanel` (`sd_panel.dfy`): the panel handlers `handleValueChange` and
  `handleModelChange`, and the value a number control displays.

Points where the code's behaviour is easy to misread, modelled as written:

- **Model switch.** A model switch does not pass `clearText`, so an existing
  non-nullish value for a shared key is kept.
- **`image_size` default.** `image_size` falls back to `"1024x1024"` under
  `||`, so an empty string is replaced too.
- **Error message.** The error message prefers the response's `message` to
  its `error`.
- **Counter.** `getNextId` pre-increments and returns the new value.
- **Filter argument.** The registry's only model calls the filter with the
  literal `"kolors"`, not with its own id `"Kwai-Kolors/Kolors"`. No field
  declares `support`, so every model sees the whole registry
  (`CommonParamsIsWholeRegistry`).

External collaborators are parameters of the model:

- the access store and the client config (`AccessConfig`, with the results
  of `getBearerToken` given as strings);
- the constants `SILICONFLOW_BASE_URL`, `ApiPath.SiliconFlow` and
  `SiliconFlow.ImagePath` (`Constants`);
- the id source `nanoid()` (a `freshId` argument that is required to be
  unused);
- `fetch`, `response.json()` and `uploadImage` (the `Outcome` datatype).

## Model

| member | source | states |
|---|---|---|
| `SdSchema.FilterKeepsSupported` | app/components/sd/sd-panel.tsx:66-70 | a field is in the filtered list iff it is in the input and has no `support` list or its list contains the model argument |
| `SdSchema.FilterIsSubsequence` | app/components/sd/sd-panel.tsx:66-70 | the filtered list is an order-preserving subsequence of the input |
| `SdSchema.FilterWithoutSupportKeepsAll` | app/components/sd/sd-panel.tsx:66-70 | when no field declares `support`, the filter returns its input unchanged |
| `SdSchema.CommonParamsIsWholeRegistry` | app/components/sd/sd-panel.tsx:9-78 | no registry field declares `support`, so `kolorsCommonParams` for any model argument, and `params` of every registry model, is the whole field registry |
| `SdSchema.Params` | app/components/sd/sd-panel.tsx:9-64 | the field registry `params`: its six fields with their keys, kinds, defaults, bounds and steps; its properties are stated by `RegistryKeysDistinct`, `CommonParamsIsWholeRegistry` and `SdPanel.OnlyGuidanceScaleIsFractional` |
| `SdSchema.Models` | app/components/sd/sd-panel.tsx:72-78 | the model registry is non-empty, so `models[0]` exists, and its `value`s are pairwise distinct, so a lookup by value is unambiguous |
| `SdSchema.Supports` | app/components/sd/sd-panel.tsx:68 | the filter condition: a field without a `support` list, or whose list contains the model argument; `FilterKeepsSupported` states the filter keeps exactly these |
| `SdSchema.Filter` | app/components/sd/sd-panel.tsx:66-70 | `params.filter(...)` with that condition; its contract is given by `FilterKeepsSupported`, `FilterIsSubsequence` and `FilterWithoutSupportKeepsAll` |
| `SdSchema.CommonParams` | app/components/sd/sd-panel.tsx:66-70 | `kolorsCommonParams(model, data)`: the registry filtered for `model`, `data` unused; `CommonParamsIsWholeRegistry` states it is the whole registry |
| `SdSchema.FieldsFor` | app/components/sd/sd-panel.tsx:76 | a registry entry's `params(data)` closure, which calls `kolorsCommonParams` with the entry's literal tag; `CommonParamsIsWholeRegistry` states it is the whole registry |
| `SdSchema.RegistryKeysDistinct` | app/components/sd/sd-panel.tsx:9-64 | the six registry fields have pairwise distinct keys |
| `SdSchema.FindModel` | app/components/sd/sd-panel.tsx:227 | `find` returns nothing iff no entry has the value; otherwise it returns the first entry with that value |
| `SdSchema.GetParams` | app/components/sd/sd-panel.tsx:226-228 | the matching registry model's field list when some model's `value` equals `model.value`, `[]` when none does |
| `SdSchema.Entry` | app/components/sd/sd-panel.tsx:217-221 | the value written for one column is never nullish. It is the existing value when that is non-nullish and the column is kept; otherwise the default when non-nullish; otherwise `""`. A column is kept unless `clearText` is set and the type is text, textarea or number; select columns always keep their existing value |
| `SdSchema.BasicData` | app/components/sd/sd-panel.tsx:210-224 | the built dictionary's key set is exactly `{item.value \| item in columns}` |
| `SdSchema.GetModelParamBasicData` | app/components/sd/sd-panel.tsx:210-224 | the `forEach` loop builds exactly `BasicData(columns, data, clearText)`, with the columns' key set |
| `SdSchema.BasicDataAt` | app/components/sd/sd-panel.tsx:216-222 | a column's key holds that column's entry unless a later column reuses the key |
| `SdSchema.BasicDataSize` | app/components/sd/sd-panel.tsx:215-223 | with distinct keys the dictionary has exactly one entry per column |
| `SdSchema.BasicDataValues` | app/components/sd/sd-panel.tsx:215-223 | with distinct keys: one entry per column, and each key maps to its column's entry |
| `SdRequest.RawBase` | app/store/sd.ts:74-79 | the base before normalisation: the custom URL (or the default base when it is empty) under custom config, else the default base in the app build, else the internal API path; `ResolveEndpoint` is proved against it |
| `SdRequest.ResolvedBearer` | app/store/sd.ts:74-85 | the credential: the custom key's token under custom config when non-empty, else the access-code token when access control is enabled, else empty; `ResolveEndpoint` is proved against it |
| `SdRequest.ResolveEndpoint` | app/store/sd.ts:71-93 | the base is the custom URL (or the default base when it is empty) under custom config, otherwise the default base in the app build and the internal API path elsewhere. It gets `https://` unless it starts with `http` or the API path, then loses one trailing `/`. The token is the custom key's token when non-empty, else the access-code token when access control is enabled, else empty |
| `SdRequest.NormalisedBaseUnique` | app/store/sd.ts:87-93 | normalisation gives at most one base for a raw base |
| `SdRequest.NormalisedBaseStripsOneSlash` | app/store/sd.ts:87-93 | only one trailing slash is removed: any base ending in `//` keeps one, and the result is the (possibly `https://`-prefixed) base minus its last character |
| `SdRequest.NormalisedBaseAddsHttps` | app/store/sd.ts:87-89 | a non-empty base without a scheme or the API path prefix and without a trailing slash becomes `https://` + base |
| `SdRequest.BuildHeaders` | app/store/sd.ts:95-102 | JSON `Content-Type` and `Accept` always; `Authorization` present iff the token is non-empty, and it holds the token |
| `SdRequest.BuildBody` | app/store/sd.ts:106-124 | always `model`, `prompt`, `image_size` (given value if truthy, else `"1024x1024"`) and `batch_size = 1`. `negative_prompt` iff truthy; `seed` iff truthy and > 0; `num_inference_steps` iff truthy; `guidance_scale` iff not `undefined`. Included fields carry the parameter's value and no other key appears |
| `SdRequest.RequestBodyUnique` | app/store/sd.ts:106-124 | the body rules fix the body completely: two bodies satisfying them for one job are equal |
| `SdRequest.BodyWithoutOptionalFields` | app/store/sd.ts:106-124 | for any model and any parameter set holding only `prompt` and `image_size`, whatever their values, the body is exactly `model`, that prompt, the size or `"1024x1024"` when it is falsy, and `batch_size = 1` |
| `SdRequest.BodyZeroSeedAndGuidance` | app/store/sd.ts:109-124 | `seed: 0` is omitted, `guidance_scale: 0` is sent, and an empty `image_size` becomes `"1024x1024"` |
| `SdRequest.BuildRequest` | app/store/sd.ts:71-124 | the request goes to `<normalised base>/<image path>`, with the headers for the resolved token and the job's body |
| `SdRequest.Settle` | app/store/sd.ts:138-200 | keeps the job's id, model and params, and always ends in `success` or `error`. Success holds iff the response is ok without `error` and its first image has a truthy `url`, or inline data whose upload succeeded. The image is the URL or the uploaded asset. A rejected response carries `message \|\| error \|\| "Request failed"`. A failed upload carries the serialised failure and an exception carries its message. Every other error from a response has a non-empty message |
| `SdRequest.SettleMissingImages` | app/store/sd.ts:148-196 | no or empty `images` gives `"No images in response"`; a first image with neither URL nor inline data gives `"No image data in response"` |
| `SdRequest.SettleScenarios` | app/store/sd.ts:138-180 | a URL response succeeds with that URL; inline data with a failed upload ends with the serialised failure; an HTTP error with `error: "bad request"` carries `"bad request"` |
| `SdStore.DefaultModel` | app/store/sd.ts:16-19 | the default model is the first registry entry's name and value, and looking its value up in the registry finds that entry again |
| `SdStore.DefaultParams` | app/store/sd.ts:21 | `getModelParamBasicData(models[0].params({}), {})`; its value is stated by `DefaultParamsValues` |
| `SdStore.DefaultParamsValues` | app/store/sd.ts:21 | the default parameter set maps `prompt` and `negative_prompt` to `""`, `image_size` to `"1024x1024"`, `num_inference_steps` to 20, `guidance_scale` to 7.5 and `seed` to 0 |
| `SdStore.DefaultsOfRegistryShape` | app/components/sd/sd-panel.tsx:215-223 | building without existing data over six distinct columns with the registry's keys and defaults, in the registry's order, gives exactly the default map |
| `SdStore.ReplaceFirst` | app/store/sd.ts:203-212 | replacing by id keeps the length and the id at every position |
| `SdStore.ReplaceFirstAt` | app/store/sd.ts:205-210 | when entry `i` is the first whose id matches, only entry `i` is replaced |
| `SdStore.ReplaceFirstAbsent` | app/store/sd.ts:205-211 | when no entry matches, the list is untouched |
| `SdStore.FindIndex` | app/store/sd.ts:205-211 | the `some` scan finds the first entry with the id, or reports that none has it |
| `SdStore.Store.constructor` | app/store/sd.ts:16-28 | `currentId = 0`, empty `draw`, the first registry model, and the parameter set built from its fields over empty data; job ids distinct |
| `SdStore.Store.GetNextId` | app/store/sd.ts:55-59 | `currentId` grows by exactly 1 and the new value is returned; nothing else changes |
| `SdStore.Store.SendTask` | app/store/sd.ts:60-66 | `draw` becomes the new `running` job with the fresh id followed by the old entries in order. The counter advances by 1 and job ids stay distinct. The request built for the job satisfies `IsRequest` |
| `SdStore.Store.UpdateDraw` | app/store/sd.ts:203-212 | `draw` becomes `ReplaceFirst(old draw, d)`: only the first entry with `d.id` is replaced, and the list is unchanged when none matches |
| `SdStore.Store.FinishRequest` | app/store/sd.ts:138-200 | the job is replaced by its settled record and the counter advances exactly once, whatever the outcome |
| `SdStore.Store.SetCurrentModel` | app/store/sd.ts:213-215 | replaces the current model and nothing else |
| `SdStore.Store.SetCurrentParams` | app/store/sd.ts:216-220 | replaces the parameter set wholesale and nothing else |
| `SdStore.SubmitAndSettle` | app/store/sd.ts:60-66 | on a fresh store, one submission and its completion leave a one-entry list holding the settled, non-running job, with the counter at 2 |
| `SdPanel.ValueChange` | app/components/sd/sd-panel.tsx:237-242 | `field` maps to `val`, the key set gains `field`, and every other key is unchanged |
| `SdPanel.HandleValueChange` | app/components/sd/sd-panel.tsx:237-242 | the store's parameter set becomes the edited one; model, jobs and counter are unchanged |
| `SdPanel.HandleModelChange` | app/components/sd/sd-panel.tsx:243-246 | the current model is the chosen one, and the parameter set is rebuilt over its fields without `clearText`. The key set is the fields' keys, and shared keys keep their non-nullish previous values |
| `SdPanel.RebuildKeepsValues` | app/components/sd/sd-panel.tsx:220 | rebuilding over distinct-key columns without `clearText` gives exactly their keys. A non-nullish existing value is kept; otherwise the key gets the default, or `""` |
| `SdPanel.ModelFieldsDistinct` | app/components/sd/sd-panel.tsx:66-78 | every model's field list has distinct keys |
| `SdPanel.NumberDisplay` | app/components/sd/sd-panel.tsx:174 | a number control shows `data[key]` when non-nullish, else the default when non-nullish, else 0, and never a nullish value |
| `SdPanel.ParsesFraction` | app/components/sd/sd-panel.tsx:176-178 | a number control parses with `parseFloat` exactly when its step is truthy and below 1, else with `parseInt`; `OnlyGuidanceScaleIsFractional` applies it to the registry |
| `SdPanel.OnlyGuidanceScaleIsFractional` | app/components/sd/sd-panel.tsx:176-178 | among the registry fields only `guidance_scale` parses input as a fraction; the others parse it as an integer |

## Left out

- Rendering (`ControlParamItem`, `ControlParam`, the JSX of `SdPanel`) and styles are not modelled. Localised strings are opaque labels.
- `fetch`, `response.json()`, `uploadImage`, `base64Image2Blob` and console logging are not modelled. Their results are inputs, given as the `Outcome` and `UploadResult` datatypes.
- `nanoid()` is replaced by a `freshId` argument that must not match an existing job id.
- Persistence (`createPersistStore`, its store name and version, load and save) is not modelled, and neither is a save/restore round trip.
- `getBearerToken`, `ACCESS_CODE_PREFIX`, `SILICONFLOW_BASE_URL`, `ApiPath.SiliconFlow` and `SiliconFlow.ImagePath` are not defined in `app/store/sd.ts` or `app/components/sd/sd-panel.tsx`. Their values are inputs.
- `parseFloat`/`parseInt` are not modelled. Only the choice between them is (`ParsesFraction`).
- Numbers are exact reals, so IEEE rounding is not modelled.
- Concurrent in-flight requests, their interleaving and the `okCall` callback are not modelled, because they are about timing.
- `JsValue.Positive`: `seed > 0` on a string seed would convert the string with ToNumber. The model treats such a seed as not positive. The form only emits numbers for number fields.
- `SdStore.Store.SetCurrentModel` stores only the model's name and value. `handleModelChange` stores the whole registry object, including its `params` closure. The store never consults the closure, because `getParams` looks the model up by `value`.
- `SdStore.Store.UpdateDraw` assigns a new sequence. The source writes into the array shared with the previous state object, so aliasing is not modelled. The fallback `draw || []` is not modelled either, because `draw` is never undefined here.
- `SdStore.Store.SendTask` takes only the job's model and parameter snapshot. Any other properties the caller's object carries through the spread are not modelled.
- `SdRequest.BuildBody` models the body as an object, before `JSON.stringify`. The serialiser drops keys whose value is `undefined`, such as a missing prompt, and that step is not modelled.
- `SdRequest.Settle` ignores exceptions raised by malformed response shapes, such as a `null` body or a `null` image entry. Those would reach the `catch` branch, which `Threw` already covers.
- DefaultsOfRegistryShape: stated only for six columns carrying the registry's keys and defaults in the registry's order, since it serves the default state; the same fact for any columns with distinct keys is `SdSchema.BasicDataValues`.
- Field types other than text, textarea, select and number are not modelled.

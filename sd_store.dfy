/**
 The draw-job store: the id counter, the job list (newest first), the
 current model and the current parameter set, with the operations that
 change them. Persistence is not modelled; the constructor gives the
 default state a fresh store starts from.
 */
module SdStore {
  import opened JsValue
  import opened SdSchema
  import opened SdRequest

  /** The model a fresh store selects: the first registry entry, which a
      lookup by its value finds again. */
  function DefaultModel(): (r: ModelRef)
    ensures FindModel(Models(), r.value) == Some(Models()[0])
  {
    Models()[0].Ref()
  }

  /** The parameter set a fresh store starts with. */
  function DefaultParams(): ParamSet {
    BasicData(FieldsFor(Models()[0], map[]), map[], false)
  }

  /** Every field of the default set holds its declared default, or "" when
      it declares none. */
  lemma DefaultParamsValues()
    ensures DefaultParams() == DefaultValues()
  {
    CommonParamsIsWholeRegistry("kolors", map[]);
    RegistryKeysDistinct();
    DefaultsOfRegistryShape(Params());
  }

  /** The default parameter set of any six columns shaped like the registry. */
  lemma DefaultsOfRegistryShape(cols: seq<Field>)
    requires |cols| == 6 && DistinctKeys(cols)
    requires cols[0].key == "prompt" && cols[0].defaultValue == Undefined
    requires cols[1].key == "negative_prompt" && cols[1].defaultValue == Undefined
    requires cols[2].key == "image_size" && cols[2].defaultValue == Str("1024x1024")
    requires cols[3].key == "num_inference_steps" && cols[3].defaultValue == Num(20.0)
    requires cols[4].key == "guidance_scale" && cols[4].defaultValue == Num(7.5)
    requires cols[5].key == "seed" && cols[5].defaultValue == Num(0.0)
    ensures BasicData(cols, map[], false) == DefaultValues()
  {
    BasicDataValues(cols, map[], false);
    var p := BasicData(cols, map[], false);
    SixKeys(cols);
    assert p["prompt"] == Str("") && p["negative_prompt"] == Str("");
    assert p["image_size"] == Str("1024x1024") && p["num_inference_steps"] == Num(20.0);
    assert p["guidance_scale"] == Num(7.5) && p["seed"] == Num(0.0);
    IsDefaultValues(p);
  }

  function DefaultValues(): ParamSet {
    map["prompt" := Str(""), "negative_prompt" := Str(""),
        "image_size" := Str("1024x1024"), "num_inference_steps" := Num(20.0),
        "guidance_scale" := Num(7.5), "seed" := Num(0.0)]
  }

  lemma SixKeys(cols: seq<Field>)
    requires |cols| == 6
    requires cols[0].key == "prompt" && cols[1].key == "negative_prompt" && cols[2].key == "image_size"
    requires cols[3].key == "num_inference_steps" && cols[4].key == "guidance_scale" && cols[5].key == "seed"
    ensures KeysOf(cols) == DefaultValues().Keys
  {
    assert forall c | c in cols :: c == cols[0] || c == cols[1] || c == cols[2]
                                   || c == cols[3] || c == cols[4] || c == cols[5];
    assert cols[0] in cols && cols[1] in cols && cols[2] in cols;
    assert cols[3] in cols && cols[4] in cols && cols[5] in cols;
  }

  lemma IsDefaultValues(p: ParamSet)
    requires p.Keys == DefaultValues().Keys
    requires p["prompt"] == Str("") && p["negative_prompt"] == Str("")
    requires p["image_size"] == Str("1024x1024") && p["num_inference_steps"] == Num(20.0)
    requires p["guidance_scale"] == Num(7.5) && p["seed"] == Num(0.0)
    ensures p == DefaultValues()
  {
  }

  ghost predicate DistinctIds(s: seq<Job>) {
    forall i, j | 0 <= i < j < |s| :: s[i].id != s[j].id
  }

  /** `draw` after `updateDraw(d)`: the first entry with `d`'s id replaced. */
  function ReplaceFirst(s: seq<Job>, d: Job): (r: seq<Job>)
    ensures |r| == |s|
    ensures forall i | 0 <= i < |s| :: r[i].id == s[i].id
  {
    if s == [] then []
    else if s[0].id == d.id then [d] + s[1..]
    else [s[0]] + ReplaceFirst(s[1..], d)
  }

  /** When entry `i` is the first with `d`'s id, exactly that entry changes. */
  lemma {:induction false} ReplaceFirstAt(s: seq<Job>, d: Job, i: nat)
    requires i < |s| && s[i].id == d.id
    requires forall j | 0 <= j < i :: s[j].id != d.id
    ensures ReplaceFirst(s, d) == s[i := d]
  {
    if i > 0 {
      ReplaceFirstAt(s[1..], d, i - 1);
      assert s[i := d] == [s[0]] + s[1..][i - 1 := d];
    }
  }

  /** When no entry has `d`'s id, nothing changes. */
  lemma {:induction false} ReplaceFirstAbsent(s: seq<Job>, d: Job)
    requires forall j | 0 <= j < |s| :: s[j].id != d.id
    ensures ReplaceFirst(s, d) == s
  {
    if s != [] {
      ReplaceFirstAbsent(s[1..], d);
    }
  }

  /** The `some` loop: the index of the first entry with id `id`. */
  method FindIndex(s: seq<Job>, id: string) returns (found: bool, index: nat)
    ensures found ==> index < |s| && s[index].id == id
    ensures found ==> forall j | 0 <= j < index :: s[j].id != id
    ensures !found ==> forall j | 0 <= j < |s| :: s[j].id != id
  {
    index := 0;
    while index < |s|
      invariant index <= |s|
      invariant forall j | 0 <= j < index :: s[j].id != id
    {
      if s[index].id == id {
        return true, index;
      }
      index := index + 1;
    }
    found := false;
  }

  class Store {
    var currentId: int
    var draw: seq<Job>
    var currentModel: ModelRef
    var currentParams: ParamSet

    /** Job ids are unique (each comes from a fresh-id oracle). */
    ghost predicate Valid()
      reads this
    {
      DistinctIds(draw)
    }

    /** The default state. */
    constructor ()
      ensures Valid()
      ensures currentId == 0 && draw == []
      ensures currentModel == DefaultModel()
      ensures currentParams == DefaultParams()
    {
      currentId := 0;
      draw := [];
      currentModel := DefaultModel();
      currentParams := DefaultParams();
    }

    /** Pre-increment the counter and return the new value. */
    method GetNextId() returns (id: int)
      requires Valid()
      modifies this
      ensures Valid()
      ensures currentId == old(currentId) + 1 && id == currentId
      ensures draw == old(draw) && currentModel == old(currentModel)
      ensures currentParams == old(currentParams)
    {
      currentId := currentId + 1;
      id := currentId;
    }

    /** Prepend a running job with the fresh id, advance the counter, and
        build the request the job is dispatched with. */
    method SendTask(d: Draft, freshId: string, cfg: AccessConfig, k: Constants)
      returns (job: Job, req: Request)
      requires Valid()
      requires forall i | 0 <= i < |draw| :: draw[i].id != freshId
      modifies this
      ensures Valid()
      ensures job == Job(freshId, d.model, d.params, Running, Undefined, Undefined)
      ensures draw == [job] + old(draw)
      ensures currentId == old(currentId) + 1
      ensures currentModel == old(currentModel) && currentParams == old(currentParams)
      ensures IsRequest(job, cfg, k, req)
    {
      job := Job(freshId, d.model, d.params, Running, Undefined, Undefined);
      draw := [job] + draw;
      var _ := GetNextId();
      req := BuildRequest(job, cfg, k);
    }

    /** Overwrite the first entry whose id is `d.id`; a silent no-op when
        there is none. */
    method UpdateDraw(d: Job)
      requires Valid()
      modifies this
      ensures Valid()
      ensures draw == ReplaceFirst(old(draw), d)
      ensures currentId == old(currentId) && currentModel == old(currentModel)
      ensures currentParams == old(currentParams)
    {
      var found, index := FindIndex(draw, d.id);
      if found {
        ReplaceFirstAt(draw, d, index);
        draw := draw[index := d];
      } else {
        ReplaceFirstAbsent(draw, d);
      }
    }

    /** The continuation of the request: settle the job from the outcome,
        then advance the counter exactly once. */
    method FinishRequest(job: Job, o: Outcome)
      requires Valid()
      modifies this
      ensures Valid()
      ensures draw == ReplaceFirst(old(draw), Settle(job, o))
      ensures currentId == old(currentId) + 1
      ensures currentModel == old(currentModel) && currentParams == old(currentParams)
    {
      UpdateDraw(Settle(job, o));
      var _ := GetNextId();
    }

    method SetCurrentModel(model: ModelRef)
      requires Valid()
      modifies this
      ensures Valid()
      ensures currentModel == model
      ensures currentId == old(currentId) && draw == old(draw)
      ensures currentParams == old(currentParams)
    {
      currentModel := model;
    }

    method SetCurrentParams(data: ParamSet)
      requires Valid()
      modifies this
      ensures Valid()
      ensures currentParams == data
      ensures currentId == old(currentId) && draw == old(draw)
      ensures currentModel == old(currentModel)
    {
      currentParams := data;
    }
  }

  /** A fresh store, one submission and its completion: the list holds the
      settled job and the counter has advanced twice. */
  method SubmitAndSettle(d: Draft, freshId: string, cfg: AccessConfig, k: Constants, o: Outcome)
    returns (draw: seq<Job>, counter: int, req: Request)
    ensures draw == [Settle(Job(freshId, d.model, d.params, Running, Undefined, Undefined), o)]
    ensures draw[0].status != Running
    ensures counter == 2
    ensures IsRequest(Job(freshId, d.model, d.params, Running, Undefined, Undefined), cfg, k, req)
  {
    var store := new Store();
    var job;
    job, req := store.SendTask(d, freshId, cfg, k);
    store.FinishRequest(job, o);
    draw, counter := store.draw, store.currentId;
  }
}

/** The repository's w3c.json document and the combined repository
    configuration: `group` normalisation and the failure-swallowing merge. */
module W3c {
  import opened Js

  /** The condition under which `group` is rewritten: present, truthy and
      not already an array. */
  predicate NeedsWrap(g: Value) {
    Truthy(g) && !g.Arr?
  }

  /** `w3c`'s normalisation of the fetched document. Reading `data.group`
      throws on `null` or `undefined`; a truthy non-array `group` becomes the
      one-element array `[group]`; every other document comes back as it is. */
  function NormaliseW3c(data: Value): (r: Outcome<Value>)
    ensures r.Rejected? <==> data.Undefined? || data.Null?
    ensures r.Rejected? ==> r.reason == TypeError
    ensures r.Ok? ==> (r.value.Obj? <==> data.Obj?)
    ensures r.Ok? && data.Obj? ==> r.value.fields.Keys == data.fields.Keys
    ensures r.Ok? && data.Obj? ==>
      forall k :: k in data.fields && k != "group" ==> r.value.fields[k] == data.fields[k]
    ensures r.Ok? && data.Obj? && "group" in data.fields ==>
      r.value.fields["group"] == (if NeedsWrap(data.fields["group"]) then Arr([data.fields["group"]]) else data.fields["group"])
    ensures r.Ok? && !data.Obj? ==> r.value == data
  {
    match data
    case Undefined => Rejected(TypeError)
    case Null => Rejected(TypeError)
    case Obj(fields) =>
      if "group" in fields && NeedsWrap(fields["group"]) then Ok(Obj(fields["group" := Arr([fields["group"]])]))
      else Ok(data)
    case _ => Ok(data)
  }

  /** After normalisation a truthy `group` is always an array. */
  lemma NormalisedGroupIsArray(data: Value)
    requires NormaliseW3c(data).Ok?
    ensures var d := NormaliseW3c(data).value;
      d.Obj? && "group" in d.fields && Truthy(d.fields["group"]) ==> d.fields["group"].Arr?
  {
  }

  /** Normalising an already normalised document changes nothing, so a
      document normalised twice (the transport may hand out the same cached
      object again) is the same as one normalised once. */
  lemma NormaliseIdempotent(data: Value)
    requires NormaliseW3c(data).Ok?
    ensures NormaliseW3c(NormaliseW3c(data).value) == NormaliseW3c(data)
  {
  }

  /** `data.w3c = w3c` in strict mode: writing a property of `null`,
      `undefined` or a primitive throws. An array accepts the property, but
      arrays carry no named properties in this model, so it comes back as it
      is. */
  function SetProperty(v: Value, key: string, x: Value): (r: Outcome<Value>)
    ensures r.Ok? <==> v.Obj? || v.Arr?
    ensures r.Ok? && v.Obj? ==> r.value == Obj(v.fields[key := x])
    ensures r.Ok? && v.Arr? ==> r.value == v
  {
    match v
    case Obj(fields) => Ok(Obj(fields[key := x]))
    case Arr(_) => Ok(v)
    case _ => Rejected(TypeError)
  }

  /** `config`: the repository resource with the normalised w3c document
      under `w3c`; `undefined` when either fetch, the normalisation or the
      merge fails, since the whole chain ends in `.catch(() => {})`. */
  function ConfigOf(core: Outcome<Value>, w3c: Outcome<Value>): (r: Value)
    ensures r.Undefined? <==>
      core.Rejected? || w3c.Rejected? || NormaliseW3c(w3c.value).Rejected? ||
      !(core.value.Obj? || core.value.Arr?)
    ensures core.Ok? && core.value.Obj? && w3c.Ok? && NormaliseW3c(w3c.value).Ok? ==>
      r.Obj? && r.fields.Keys == core.value.fields.Keys + {"w3c"} &&
      r.fields["w3c"] == NormaliseW3c(w3c.value).value &&
      forall k :: k in core.value.fields && k != "w3c" ==> r.fields[k] == core.value.fields[k]
    ensures core.Ok? && core.value.Arr? && w3c.Ok? && NormaliseW3c(w3c.value).Ok? ==> r == core.value
  {
    if core.Rejected? || w3c.Rejected? then Undefined
    else
      match NormaliseW3c(w3c.value)
      case Rejected(_) => Undefined
      case Ok(doc) =>
        match SetProperty(core.value, "w3c", doc)
        case Rejected(_) => Undefined
        case Ok(merged) => merged
  }
}

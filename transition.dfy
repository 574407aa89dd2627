/** One step of interaction (milo/data/transition.py): a record of nine
    fields, assigned once by the constructor and never changed afterwards,
    hence a datatype. */
module Transitions {
  import opened Values

  datatype Transition = Transition(
    obs: Value,
    action: Value,
    reward: Value,
    nextObs: Value,
    done: Value,
    terminated: Value,
    truncated: Value,
    info: Value,
    pixels: Value)

  /** The attribute names the constructor assigns, in assignment order. */
  const FieldNames: seq<string> :=
    ["obs", "action", "reward", "next_obs", "done", "terminated", "truncated", "info", "pixels"]

  /** `Transition(obs, action, reward, next_obs, done, ...)`: the first five
      arguments are required, the last four default to `None`. */
  function New(obs: Value, action: Value, reward: Value, nextObs: Value, done: Value,
               terminated: Value := NoneValue, truncated: Value := NoneValue,
               info: Value := NoneValue, pixels: Value := NoneValue): (t: Transition)
    ensures forall i :: 0 <= i < |FieldNames| ==>
              Field(t, FieldNames[i]) == [obs, action, reward, nextObs, done, terminated, truncated, info, pixels][i]
  {
    var t := Transition(obs, action, reward, nextObs, done, terminated, truncated, info, pixels);
    FieldsByIndex(t);
    t
  }

  /** The field of `t` stored under the attribute name `k`. */
  function Field(t: Transition, k: string): Value
    requires k in FieldNames
  {
    if k == "obs" then t.obs
    else if k == "action" then t.action
    else if k == "reward" then t.reward
    else if k == "next_obs" then t.nextObs
    else if k == "done" then t.done
    else if k == "terminated" then t.terminated
    else if k == "truncated" then t.truncated
    else if k == "info" then t.info
    else t.pixels
  }

  /** The nine fields, in assignment order. */
  function FieldValues(t: Transition): seq<Value>
  {
    [t.obs, t.action, t.reward, t.nextObs, t.done, t.terminated, t.truncated, t.info, t.pixels]
  }

  /** The `i`-th attribute name selects the `i`-th field. */
  lemma FieldByIndex(t: Transition, i: nat)
    requires i < |FieldNames|
    ensures Field(t, FieldNames[i]) == FieldValues(t)[i]
  {
    if i == 0 {} else if i == 1 {} else if i == 2 {} else if i == 3 {} else if i == 4 {}
    else if i == 5 {} else if i == 6 {} else if i == 7 {} else {}
  }

  /** Every attribute name selects the field at its own position. */
  lemma FieldsByIndex(t: Transition)
    ensures forall i :: 0 <= i < |FieldNames| ==> Field(t, FieldNames[i]) == FieldValues(t)[i]
  {
    forall i | 0 <= i < |FieldNames| ensures Field(t, FieldNames[i]) == FieldValues(t)[i] {
      FieldByIndex(t, i);
    }
  }

  /** The nine attribute names are distinct. */
  lemma FieldNamesDistinct()
    ensures Distinct(FieldNames)
  {
  }

  /** No field is named like the bookkeeping attributes of a batch. */
  lemma FieldNamesNotBookkeeping()
    ensures "_keys" !in FieldNames && "_batch" !in FieldNames
  {
  }

  /** The transition as a Python object: its `__dict__` holds the nine
      attributes in assignment order. */
  function AsObject(t: Transition): (v: Value)
    ensures v.Obj? && v.attrs.Valid()
    ensures v.attrs.order == FieldNames
    ensures forall i :: 0 <= i < |FieldNames| ==> Attr(v, FieldNames[i]) == Some(Field(t, FieldNames[i]))
  {
    FieldNamesDistinct();
    Obj(Dict(FieldNames, map k | k in FieldNames :: Field(t, k)))
  }

  /** Construction stores each argument unchanged under the attribute of the
      same name: the `i`-th attribute of `FieldNames` reads back as the
      `i`-th argument, and the four omitted optional ones as `None`. */
  lemma ConstructionStoresArguments(obs: Value, action: Value, reward: Value, nextObs: Value, done: Value, i: nat)
    requires i < |FieldNames|
    ensures Attr(AsObject(New(obs, action, reward, nextObs, done)), FieldNames[i])
            == Some([obs, action, reward, nextObs, done, NoneValue, NoneValue, NoneValue, NoneValue][i])
  {
    FieldByIndex(New(obs, action, reward, nextObs, done), i);
  }

  /** The name/value pairs `repr(t)` prints, in printed order: the first
      seven attributes, without `info` and `pixels`. */
  function ReprFields(t: Transition): (r: seq<(string, Value)>)
    ensures |r| == 7
    ensures forall i :: 0 <= i < 7 ==> r[i] == (FieldNames[i], FieldValues(t)[i])
  {
    [("obs", t.obs), ("action", t.action), ("reward", t.reward), ("next_obs", t.nextObs),
     ("done", t.done), ("terminated", t.terminated), ("truncated", t.truncated)]
  }

  /** `repr(t)` shows each printed attribute with its stored value, and
      shows neither `info` nor `pixels`. */
  lemma ReprShowsAttributes(t: Transition)
    ensures forall i :: 0 <= i < |ReprFields(t)| ==> Attr(AsObject(t), ReprFields(t)[i].0) == Some(ReprFields(t)[i].1)
    ensures forall i :: 0 <= i < |ReprFields(t)| ==> ReprFields(t)[i].0 != "info" && ReprFields(t)[i].0 != "pixels"
  {
    var r := ReprFields(t);
    FieldNamesDistinct();
    forall i | 0 <= i < |r|
      ensures Attr(AsObject(t), r[i].0) == Some(r[i].1)
      ensures r[i].0 != FieldNames[7] && r[i].0 != FieldNames[8]
    {
      FieldByIndex(t, i);
    }
  }
}

/** Columnar view over a list of records (milo/data/batch.py).

    A `Batch` object is modelled by its instance `__dict__`: the entries
    `"_keys"` (the selected key list) and `"_batch"` (the source list) that
    `__init__` assigns first, followed by one stacked column per attribute of
    the first record. The key-selection rule and the stacking comprehension
    are functions; `_setup`, `to_numpy` and `to_torch`, which rewrite the
    `__dict__` entry by entry, are methods proved against them. */
module Batches {
  import opened Values

  /** The nine fields the class declares as annotations, in declaration order. */
  const DeclaredKeys: seq<string> :=
    ["obs", "action", "reward", "next_obs", "done", "terminated", "truncated", "info", "pixels"]

  /** `xs or []` for an optional list. */
  function OrEmpty(xs: Option<seq<string>>): (r: seq<string>)
    ensures xs.None? ==> r == []
    ensures xs.Some? ==> r == xs.value
  {
    if xs.Some? then xs.value else []
  }

  /** `_setup_keys`: a non-empty `only` is taken as given; otherwise the
      declared keys, minus `exclude` taken as a set. Python builds the latter
      from a `set`, so its order is unspecified: the contract promises the
      members only, without duplicates. */
  function SetupKeys(exclude: seq<string>, only: seq<string>): (r: seq<string>)
    ensures only != [] ==> r == only
    ensures only == [] && exclude == [] ==> r == DeclaredKeys
    ensures only == [] ==> Distinct(r) && forall k :: k in r <==> k in DeclaredKeys && k !in exclude
  {
    if only != [] then only
    else if exclude != [] then Without(DeclaredKeys, exclude)
    else DeclaredKeys
  }

  /** The `__dict__` right after `self._keys = ...` and `self._batch = batch`. */
  function Initial(keys: seq<string>, items: seq<Value>): (d: Dict<Value>)
    ensures d.Valid() && d.order == ["_keys", "_batch"]
  {
    Dict(["_keys", "_batch"], map["_keys" := PyList(Strings(keys)), "_batch" := PyList(items)])
  }

  /** The error the subset check raises on one record: it has no `__dict__`,
      or it lacks one of the selected keys. */
  function ItemError(v: Value, keys: seq<string>): (e: Option<Error>)
    ensures e.None? <==> HasAttrs(v, keys)
  {
    if !v.Obj? then Some(AttributeError)
    else if HasAttrs(v, keys) then None
    else Some(AssertionError)
  }

  /** The subset check of `_setup` over `items[i..]`: the error of the first
      record that fails it. */
  function SubsetErrorFrom(items: seq<Value>, keys: seq<string>, i: nat): (e: Option<Error>)
    requires i <= |items|
    ensures e.None? <==> forall j :: i <= j < |items| ==> HasAttrs(items[j], keys)
    ensures e.Some? ==> exists j :: i <= j < |items| && e == ItemError(items[j], keys)
                          && forall m :: i <= m < j ==> HasAttrs(items[m], keys)
    decreases |items| - i
  {
    if i == |items| then None
    else if ItemError(items[i], keys).Some? then ItemError(items[i], keys)
    else SubsetErrorFrom(items, keys, i + 1)
  }

  /** The subset check of `_setup`: every record after the first must have
      every selected key; the first record is never checked. */
  function SubsetError(items: seq<Value>, keys: seq<string>): (e: Option<Error>)
    requires |items| > 0
    ensures e.None? <==> forall j :: 1 <= j < |items| ==> HasAttrs(items[j], keys)
    ensures e.Some? ==> exists j :: 1 <= j < |items| && e == ItemError(items[j], keys)
                          && forall m :: 1 <= m < j ==> HasAttrs(items[m], keys)
  {
    SubsetErrorFrom(items, keys, 1)
  }

  /** `getattr(t, key)` succeeds for every record and every key. */
  predicate Stackable(items: seq<Value>, names: seq<string>)
  {
    forall i, j :: 0 <= i < |items| && 0 <= j < |names| ==> Attr(items[i], names[j]).Some?
  }

  /** The attribute `k` of every record, in source order. */
  function Column(items: seq<Value>, k: string): (c: seq<Value>)
    requires forall i :: 0 <= i < |items| ==> Attr(items[i], k).Some?
    ensures |c| == |items| && forall i :: 0 <= i < |items| ==> Some(c[i]) == Attr(items[i], k)
  {
    seq(|items|, i requires 0 <= i < |items| => Attr(items[i], k).value)
  }

  /** The stacking comprehension: one `np.stack` column per name. */
  function Columns(items: seq<Value>, names: seq<string>): (cs: seq<(string, Value)>)
    requires Stackable(items, names)
    ensures |cs| == |names|
    ensures forall j :: 0 <= j < |names| ==> cs[j] == (names[j], Stack(Column(items, names[j])))
  {
    seq(|names|, j requires 0 <= j < |names| => (names[j], Stack(Column(items, names[j]))))
  }

  /** `_setup(set_attr=True)` on the dictionary `d`. */
  function SetupOutcome(d: Dict<Value>, items: seq<Value>, keys: seq<string>): (r: Result<Dict<Value>>)
    requires d.Valid()
    ensures |items| == 0 ==> r == Err(IndexError)
    ensures r.Ok? ==> |items| > 0 && items[0].Obj?
                      && Stackable(items, items[0].attrs.order)
                      && forall j :: 1 <= j < |items| ==> HasAttrs(items[j], keys)
    ensures (|items| > 0 && items[0].Obj? && Stackable(items, items[0].attrs.order)
             && forall j :: 1 <= j < |items| ==> HasAttrs(items[j], keys)) ==> r.Ok?
  {
    if |items| == 0 then Err(IndexError)
    else if !items[0].Obj? then Err(AttributeError)
    else match SubsetError(items, keys)
      case Some(e) => Err(e)
      case None =>
        var names := items[0].attrs.order;
        if !Stackable(items, names) then Err(AttributeError)
        else Ok(SetAll(d, Columns(items, names)))
  }

  /** `Batch(batch, exclude, only)`: the resulting `__dict__`, or the error. */
  function Construct(items: seq<Value>, exclude: Option<seq<string>>, only: Option<seq<string>>): (r: Result<Dict<Value>>)
    ensures exclude.Some? && only.Some? ==> r == Err(AssertionError)
    ensures exclude.None? || only.None? ==>
              r == SetupOutcome(Initial(SelectedKeys(exclude, only), items), items, SelectedKeys(exclude, only))
  {
    if exclude.Some? && only.Some? then Err(AssertionError)
    else
      var keys := SelectedKeys(exclude, only);
      SetupOutcome(Initial(keys, items), items, keys)
  }

  /** The value of `self._keys`. */
  function SelectedKeys(exclude: Option<seq<string>>, only: Option<seq<string>>): seq<string>
  {
    SetupKeys(OrEmpty(exclude), OrEmpty(only))
  }

  /** A successful construction is the initial dictionary with one
      stacked column set per attribute of the first record, in its order. */
  lemma ConstructIsSetAll(items: seq<Value>, exclude: Option<seq<string>>, only: Option<seq<string>>)
    requires Construct(items, exclude, only).Ok?
    ensures |items| > 0 && items[0].Obj? && Stackable(items, items[0].attrs.order)
    ensures Construct(items, exclude, only)
            == Ok(SetAll(Initial(SelectedKeys(exclude, only), items), Columns(items, items[0].attrs.order)))
  {
    var keys := SelectedKeys(exclude, only);
    assert Construct(items, exclude, only) == SetupOutcome(Initial(keys, items), items, keys);
    assert SubsetError(items, keys).None?;
  }

  /** Setting distinct columns other than `_keys` and `_batch` on the
      initial dictionary appends their names to its order. */
  lemma ColumnsFollowInitial(keys: seq<string>, items: seq<Value>, names: seq<string>)
    requires Stackable(items, names) && Distinct(names)
    requires "_keys" !in names && "_batch" !in names
    ensures SetAll(Initial(keys, items), Columns(items, names)).order == ["_keys", "_batch"] + names
  {
    var d0 := Initial(keys, items);
    forall j | 0 <= j < |names| ensures names[j] !in d0.entries {
    }
    SetAllOrder(d0, Columns(items, names), names);
  }

  /** The attributes of the first record are set after `_keys` and
      `_batch`, in that record's attribute order. */
  lemma BatchOrder(items: seq<Value>, exclude: Option<seq<string>>, only: Option<seq<string>>)
    requires Construct(items, exclude, only).Ok?
    requires |items| > 0 && items[0].Obj? && items[0].attrs.Valid()
    requires "_keys" !in items[0].attrs.entries && "_batch" !in items[0].attrs.entries
    ensures Construct(items, exclude, only).value.order == ["_keys", "_batch"] + items[0].attrs.order
  {
    ConstructIsSetAll(items, exclude, only);
    ColumnsFollowInitial(SelectedKeys(exclude, only), items, items[0].attrs.order);
  }

  /** Setting columns other than `_keys` and `_batch` on the initial
      dictionary leaves those two alone. */
  lemma ColumnsKeepBookkeeping(keys: seq<string>, items: seq<Value>, names: seq<string>)
    requires Stackable(items, names)
    requires "_keys" !in names && "_batch" !in names
    ensures var e := SetAll(Initial(keys, items), Columns(items, names)).entries;
            && "_keys" in e && e["_keys"] == PyList(Strings(keys))
            && "_batch" in e && e["_batch"] == PyList(items)
  {
    var cs := Columns(items, names);
    forall j | 0 <= j < |cs| ensures cs[j].0 != "_keys" && cs[j].0 != "_batch" {
      assert cs[j].0 == names[j];
    }
    SetAllKeeps(Initial(keys, items), cs, "_keys");
    SetAllKeeps(Initial(keys, items), cs, "_batch");
  }

  /** A successful construction holds the selected keys under `_keys` and
      the source records under `_batch`. */
  lemma BatchBookkeeping(items: seq<Value>, exclude: Option<seq<string>>, only: Option<seq<string>>)
    requires Construct(items, exclude, only).Ok?
    requires |items| > 0 && items[0].Obj? && items[0].attrs.Valid()
    requires "_keys" !in items[0].attrs.entries && "_batch" !in items[0].attrs.entries
    ensures var e := Construct(items, exclude, only).value.entries;
            && "_keys" in e && e["_keys"] == PyList(Strings(SelectedKeys(exclude, only)))
            && "_batch" in e && e["_batch"] == PyList(items)
  {
    ConstructIsSetAll(items, exclude, only);
    ColumnsKeepBookkeeping(SelectedKeys(exclude, only), items, items[0].attrs.order);
  }

  /** Setting distinct columns stores each as the stack of its attribute
      over the records. */
  lemma ColumnsStored(keys: seq<string>, items: seq<Value>, names: seq<string>)
    requires Stackable(items, names) && Distinct(names)
    ensures var e := SetAll(Initial(keys, items), Columns(items, names)).entries;
            forall k :: k in names ==> k in e && e[k] == Stack(Column(items, k))
  {
    var cs := Columns(items, names);
    var e := SetAll(Initial(keys, items), cs).entries;
    SetAllSets(Initial(keys, items), cs, names);
    forall k | k in names ensures k in e && e[k] == Stack(Column(items, k)) {
      var j :| 0 <= j < |names| && names[j] == k;
      assert cs[j].1 == Stack(Column(items, k));
    }
  }

  /** A successful construction holds one stacked column per attribute of
      the first record: each column lists that attribute of every record in
      source order. */
  lemma BatchColumns(items: seq<Value>, exclude: Option<seq<string>>, only: Option<seq<string>>)
    requires Construct(items, exclude, only).Ok?
    requires |items| > 0 && items[0].Obj? && items[0].attrs.Valid()
    ensures var e := Construct(items, exclude, only).value.entries;
            forall k :: k in items[0].attrs.entries ==>
              && k in e && e[k].NdArray? && |e[k].rows| == |items|
              && forall i :: 0 <= i < |items| ==> Some(e[k].rows[i]) == Attr(items[i], k)
  {
    ConstructIsSetAll(items, exclude, only);
    var names := items[0].attrs.order;
    ColumnsStored(SelectedKeys(exclude, only), items, names);
  }

  /** `len(v)` for the sized values the model knows. */
  function Rows(v: Value): Option<nat>
  {
    match v
    case PyList(e) => Some(|e|)
    case NdArray(_, e) => Some(|e|)
    case Tensor(e, _) => Some(|e|)
    case _ => None
  }

  /** `len(batch)`: the length of `self._batch`. */
  function LenOf(d: Dict<Value>): (r: Result<nat>)
    ensures "_batch" in d.entries && Rows(d.entries["_batch"]).Some? ==> r == Ok(Rows(d.entries["_batch"]).value)
    ensures "_batch" !in d.entries ==> r == Err(AttributeError)
  {
    if "_batch" !in d.entries then Err(AttributeError)
    else match Rows(d.entries["_batch"])
      case Some(n) => Ok(n)
      case None => Err(TypeError)
  }

  /** A constructed batch has one row per source record. */
  lemma ConstructedLength(items: seq<Value>, exclude: Option<seq<string>>, only: Option<seq<string>>)
    requires Construct(items, exclude, only).Ok?
    requires |items| > 0 && items[0].Obj? && items[0].attrs.Valid()
    ensures LenOf(Construct(items, exclude, only).value) == Ok(|items|)
  {
    ConstructIsSetAll(items, exclude, only);
    SetupLength(SelectedKeys(exclude, only), items, items[0].attrs.order);
  }

  /** `_setup` leaves `len` at the number of records: `_batch` keeps the
      list of records `__init__` assigned, unless a record attribute named
      `_batch` overwrites it with a column of one row per record. */
  lemma SetupLength(keys: seq<string>, items: seq<Value>, names: seq<string>)
    requires Stackable(items, names) && Distinct(names)
    ensures LenOf(SetAll(Initial(keys, items), Columns(items, names))) == Ok(|items|)
  {
    if "_batch" in names {
      ColumnsStored(keys, items, names);
      StackedRows(Column(items, "_batch"));
    } else {
      var cs := Columns(items, names);
      assert forall j :: 0 <= j < |cs| ==> cs[j].0 != "_batch";
      SetAllKeeps(Initial(keys, items), cs, "_batch");
    }
  }

  /** A stacked column has one row per stacked value. */
  lemma StackedRows(vs: seq<Value>)
    ensures Rows(Stack(vs)) == Some(|vs|)
  { }

  /** The strings held by a list or array of `str` values. */
  function TextsOf(vs: seq<Value>): (r: Option<seq<string>>)
    ensures r.Some? ==> |r.value| == |vs| && forall i :: 0 <= i < |vs| ==> vs[i] == Text(r.value[i])
    ensures (forall i :: 0 <= i < |vs| ==> vs[i].Text?) ==> r.Some?
  {
    if vs == [] then Some([])
    else if !vs[0].Text? then None
    else match TextsOf(vs[1..])
      case None => None
      case Some(rest) => Some([vs[0].s] + rest)
  }

  /** `repr(batch)`: for each selected key, the leading dimension of its
      column, or `None` where the column is `None`. */
  function ReprOf(d: Dict<Value>): (r: Result<seq<(string, Option<nat>)>>)
    ensures r.Ok? ==> "_keys" in d.entries
    ensures r.Ok? ==> var ks := d.entries["_keys"];
              (ks.PyList? || ks.NdArray?) &&
              var names := (if ks.PyList? then ks.elems else ks.rows);
              |r.value| == |names| &&
              forall i :: 0 <= i < |names| ==> Text(r.value[i].0) == names[i] && r.value[i].0 in d.entries
  {
    if "_keys" !in d.entries then Err(AttributeError)
    else
      var ks := d.entries["_keys"];
      if !(ks.PyList? || ks.NdArray?) then Err(TypeError)
      else match TextsOf(if ks.PyList? then ks.elems else ks.rows)
        case None => Err(TypeError)
        case Some(names) => ShapesOf(d, names)
  }

  /** `v is None` or `v.shape` exists. */
  predicate Shaped(v: Value)
  {
    v == NoneValue || v.NdArray? || v.Tensor?
  }

  function ShapesOf(d: Dict<Value>, names: seq<string>): (r: Result<seq<(string, Option<nat>)>>)
    ensures r.Ok? ==> |r.value| == |names| && forall i :: 0 <= i < |names| ==>
              r.value[i].0 == names[i] && names[i] in d.entries &&
              r.value[i].1 == (if d.entries[names[i]] == NoneValue then None else Rows(d.entries[names[i]]))
    ensures r.Err? ==>
              exists i :: 0 <= i < |names| && (names[i] !in d.entries || !Shaped(d.entries[names[i]]))
  {
    if names == [] then Ok([])
    else
      var k := names[0];
      if k !in d.entries then Err(KeyError(k))
      else
        var v := d.entries[k];
        var shape :=
          if v == NoneValue then Ok(None)
          else if v.NdArray? || v.Tensor? then Ok(Rows(v))
          else Err(AttributeError);
        match shape
        case Err(e) => Err(e)
        case Ok(s) =>
          match ShapesOf(d, names[1..])
          case Err(e) => Err(e)
          case Ok(rest) => Ok([(k, s)] + rest)
  }

  /** The state a key-by-key conversion pass leaves: the dictionary and the
      exception that stopped it, if any. */
  datatype Pass = Pass(attrs: Dict<Value>, error: Option<Error>)

  /** The keys `to_numpy` and `to_torch` visit: a non-empty `only`, else every
      key of the `__dict__`, in order. */
  function VisitedKeys(d: Dict<Value>, only: Option<seq<string>>): (ks: seq<string>)
    ensures OrEmpty(only) != [] ==> ks == only.value
    ensures OrEmpty(only) == [] ==> ks == d.order
  {
    if OrEmpty(only) != [] then only.value else d.order
  }

  /** `np.array(v)` or `v.cpu().numpy()` for a value that is not an array. */
  function AsNumpy(v: Value): (a: Value)
    ensures a.NdArray?
    ensures Rows(v).Some? ==> Rows(a) == Rows(v)
  {
    match v
    case Tensor(rows, _) => NdArray(Numeric, rows)
    case PyList(e) => NdArray(StackDType(e), e)
    case NdArray(_, _) => v
    case _ => NdArray(KindOf(v), [v])
  }

  /** The dictionary after `to_numpy` visits the present key `k`. */
  function NumpyVisit(d: Dict<Value>, k: string, exclude: seq<string>): (d': Dict<Value>)
    requires d.Valid() && k in d.entries
    ensures d'.Valid()
  {
    if d.entries[k].NdArray? || k in exclude then d else d.Set(k, AsNumpy(d.entries[k]))
  }

  /** The loop of `to_numpy` over `keys`. */
  function NumpyPass(d: Dict<Value>, keys: seq<string>, exclude: seq<string>): (p: Pass)
    requires d.Valid()
    ensures p.attrs.Valid() && p.attrs.order == d.order
    decreases |keys|
  {
    if keys == [] then Pass(d, None)
    else
      var k := keys[0];
      if k !in d.entries then Pass(d, Some(KeyError(k)))
      else NumpyPass(NumpyVisit(d, k, exclude), keys[1..], exclude)
  }

  /** One iteration of the `to_numpy` loop: a missing key stops the pass
      with `KeyError`, a present one is visited and the pass goes on. */
  lemma NumpyPassStep(d: Dict<Value>, keys: seq<string>, i: nat, exclude: seq<string>)
    requires d.Valid() && i < |keys|
    ensures keys[i] !in d.entries ==> NumpyPass(d, keys[i..], exclude) == Pass(d, Some(KeyError(keys[i])))
    ensures keys[i] in d.entries ==>
              NumpyPass(d, keys[i..], exclude) == NumpyPass(NumpyVisit(d, keys[i], exclude), keys[i + 1..], exclude)
  {
    assert keys[i..][0] == keys[i] && keys[i..][1..] == keys[i + 1..];
  }

  /** `to_numpy` never touches an array, an excluded key or a key it does not
      visit. */
  lemma {:induction false} NumpyPassKeeps(d: Dict<Value>, keys: seq<string>, exclude: seq<string>)
    requires d.Valid()
    ensures var p := NumpyPass(d, keys, exclude);
            forall k :: k in d.entries && (k !in keys || k in exclude || d.entries[k].NdArray?) ==>
              p.attrs.entries[k] == d.entries[k]
    decreases |keys|
  {
    if keys != [] && keys[0] in d.entries {
      NumpyPassKeeps(NumpyVisit(d, keys[0], exclude), keys[1..], exclude);
    }
  }

  /** When `to_numpy` completes, every visited key was present and every
      visited, non-excluded key now holds the conversion of its old value
      when that was not already an array. */
  lemma {:induction false} NumpyPassConverts(d: Dict<Value>, keys: seq<string>, exclude: seq<string>)
    requires d.Valid()
    ensures var p := NumpyPass(d, keys, exclude);
            p.error.None? ==> forall k :: k in keys ==>
              && k in d.entries
              && p.attrs.entries[k] == (if k in exclude || d.entries[k].NdArray? then d.entries[k] else AsNumpy(d.entries[k]))
    decreases |keys|
  {
    if keys != [] && keys[0] in d.entries {
      NumpyPassConverts(NumpyVisit(d, keys[0], exclude), keys[1..], exclude);
      NumpyPassKeeps(NumpyVisit(d, keys[0], exclude), keys[1..], exclude);
    }
  }

  /** `to_numpy` fails only on a visited key that is missing, with
      `KeyError` naming it. */
  lemma {:induction false} NumpyPassFails(d: Dict<Value>, keys: seq<string>, exclude: seq<string>)
    requires d.Valid()
    ensures var p := NumpyPass(d, keys, exclude);
            p.error.Some? ==> exists k :: k in keys && k !in d.entries && p.error == Some(KeyError(k))
    decreases |keys|
  {
    if keys != [] && keys[0] in d.entries {
      NumpyPassFails(NumpyVisit(d, keys[0], exclude), keys[1..], exclude);
    }
  }

  /** `to_numpy` preserves the number of rows of every sized value, so the
      batch length is unchanged even though `_batch` itself is converted. */
  lemma {:induction false} NumpyPassKeepsRows(d: Dict<Value>, keys: seq<string>, exclude: seq<string>)
    requires d.Valid()
    ensures forall k :: k in d.entries && Rows(d.entries[k]).Some? ==>
              Rows(NumpyPass(d, keys, exclude).attrs.entries[k]) == Rows(d.entries[k])
    ensures LenOf(d).Ok? ==> LenOf(NumpyPass(d, keys, exclude).attrs) == LenOf(d)
    decreases |keys|
  {
    if keys != [] {
      var k := keys[0];
      if k in d.entries {
        NumpyPassKeepsRows(NumpyVisit(d, k, exclude), keys[1..], exclude);
      }
    }
  }

  /** `exclude or ["info"]`. */
  function TorchExclude(exclude: Option<seq<string>>): (ex: seq<string>)
    ensures OrEmpty(exclude) == [] ==> ex == ["info"]
    ensures OrEmpty(exclude) != [] ==> ex == exclude.value
  {
    if OrEmpty(exclude) != [] then exclude.value else ["info"]
  }

  predicate Private(k: string)
  {
    |k| > 0 && k[0] == '_'
  }

  /** `to_torch` skips a key without looking at its value. */
  predicate TorchSkipsName(k: string, exclude: seq<string>)
  {
    k in exclude || Private(k)
  }

  /** `to_torch` skips a value that is already a tensor or an object array. */
  predicate TorchSkipsValue(v: Value)
  {
    v.Tensor? || (v.NdArray? && v.dtype == ObjectDType)
  }

  /** The conversion branch of `to_torch` for a value it does not skip:
      `torch.from_numpy(...).to(device)` for an array (refused for string
      arrays), `torch.tensor(v, device=device)` otherwise, whose refusal is
      reported as `ValueError`. */
  function AsTensor(v: Value, device: string): (r: Result<Value>)
    requires !TorchSkipsValue(v)
    ensures r.Ok? ==> r.value.Tensor? && r.value.device == device
    ensures v.NdArray? ==> (r.Ok? <==> v.dtype == Numeric)
    ensures !v.NdArray? ==> (r.Ok? <==> TensorReady(v))
  {
    match v
    case NdArray(dt, rows) => if dt == Numeric then Ok(Tensor(rows, device)) else Err(TypeError)
    case PyList(e) => if TensorReady(v) then Ok(Tensor(e, device)) else Err(ValueError)
    case _ => if TensorReady(v) then Ok(Tensor([v], device)) else Err(ValueError)
  }

  /** What `to_torch` does with a present key it does not skip by name:
      leave a tensor or an object array alone, otherwise convert the value
      or fail. */
  function TorchVisit(d: Dict<Value>, k: string, device: string): (r: Result<Dict<Value>>)
    requires d.Valid() && k in d.entries
    ensures r.Ok? ==> r.value.Valid() && r.value.order == d.order
    ensures TorchSkipsValue(d.entries[k]) ==> r == Ok(d)
    ensures !TorchSkipsValue(d.entries[k]) ==>
              (r.Ok? <==> AsTensor(d.entries[k], device).Ok?)
              && (r.Ok? ==> r.value == d.Set(k, AsTensor(d.entries[k], device).value))
              && (r.Err? ==> r.error == AsTensor(d.entries[k], device).error)
  {
    if TorchSkipsValue(d.entries[k]) then Ok(d)
    else match AsTensor(d.entries[k], device)
      case Err(e) => Err(e)
      case Ok(t) => Ok(d.Set(k, t))
  }

  /** The loop of `to_torch` over `keys`. */
  function TorchPass(d: Dict<Value>, keys: seq<string>, exclude: seq<string>, device: string): (p: Pass)
    requires d.Valid()
    ensures p.attrs.Valid() && p.attrs.order == d.order
    decreases |keys|
  {
    if keys == [] then Pass(d, None)
    else
      var k := keys[0];
      if TorchSkipsName(k, exclude) then TorchPass(d, keys[1..], exclude, device)
      else if k !in d.entries then Pass(d, Some(KeyError(k)))
      else match TorchVisit(d, k, device)
        case Err(e) => Pass(d, Some(e))
        case Ok(d') => TorchPass(d', keys[1..], exclude, device)
  }

  /** One iteration of the `to_torch` loop, as what it leaves to the rest
      of the pass. */
  lemma TorchPassStep(d: Dict<Value>, keys: seq<string>, i: nat, exclude: seq<string>, device: string)
    requires d.Valid() && i < |keys|
    ensures var k := keys[i];
            var rest := TorchPass(d, keys[i..], exclude, device);
            && (TorchSkipsName(k, exclude) ==> rest == TorchPass(d, keys[i + 1..], exclude, device))
            && (!TorchSkipsName(k, exclude) && k !in d.entries ==> rest == Pass(d, Some(KeyError(k))))
            && (!TorchSkipsName(k, exclude) && k in d.entries ==>
                  rest == match TorchVisit(d, k, device)
                          case Err(e) => Pass(d, Some(e))
                          case Ok(d') => TorchPass(d', keys[i + 1..], exclude, device))
  {
    assert keys[i..][0] == keys[i] && keys[i..][1..] == keys[i + 1..];
  }

  /** `to_torch` never touches an excluded key, a key starting with `_`, a
      tensor, an object array or a key it does not visit. */
  lemma {:induction false} TorchPassKeeps(d: Dict<Value>, keys: seq<string>, exclude: seq<string>, device: string)
    requires d.Valid()
    ensures var p := TorchPass(d, keys, exclude, device);
            forall k :: k in d.entries && (k !in keys || TorchSkipsName(k, exclude) || TorchSkipsValue(d.entries[k])) ==>
              p.attrs.entries[k] == d.entries[k]
    decreases |keys|
  {
    if keys != [] {
      var k := keys[0];
      if TorchSkipsName(k, exclude) {
        TorchPassKeeps(d, keys[1..], exclude, device);
      } else if k in d.entries && TorchVisit(d, k, device).Ok? {
        TorchPassKeeps(TorchVisit(d, k, device).value, keys[1..], exclude, device);
      }
    }
  }

  /** When `to_torch` completes, every visited key it does not skip by name
      was present and convertible, and holds the tensor converted from its
      old value unless that was skipped as a tensor or an object array. */
  lemma {:induction false} TorchPassConverts(d: Dict<Value>, keys: seq<string>, exclude: seq<string>, device: string)
    requires d.Valid()
    ensures var p := TorchPass(d, keys, exclude, device);
            p.error.None? ==> forall k :: k in keys && !TorchSkipsName(k, exclude) ==>
              && k in d.entries
              && (TorchSkipsValue(d.entries[k]) || AsTensor(d.entries[k], device).Ok?)
              && p.attrs.entries[k] == (if TorchSkipsValue(d.entries[k]) then d.entries[k]
                                        else AsTensor(d.entries[k], device).value)
    decreases |keys|
  {
    if keys != [] {
      var k := keys[0];
      if TorchSkipsName(k, exclude) {
        TorchPassConverts(d, keys[1..], exclude, device);
      } else if k in d.entries && TorchVisit(d, k, device).Ok? {
        var d' := TorchVisit(d, k, device).value;
        TorchPassConverts(d', keys[1..], exclude, device);
        TorchPassKeeps(d', keys[1..], exclude, device);
      }
    }
  }

  /** `to_torch` fails only on a visited key it does not skip by name: with
      `KeyError` naming it when it is missing, or with the error of its
      conversion. */
  lemma {:induction false} TorchPassFails(d: Dict<Value>, keys: seq<string>, exclude: seq<string>, device: string)
    requires d.Valid()
    ensures var p := TorchPass(d, keys, exclude, device);
            p.error.Some? ==>
              exists k :: && k in keys && !TorchSkipsName(k, exclude)
                          && (p.error == Some(KeyError(k)) || p.error == Some(TypeError) || p.error == Some(ValueError))
    decreases |keys|
  {
    if keys != [] {
      var k := keys[0];
      if TorchSkipsName(k, exclude) {
        TorchPassFails(d, keys[1..], exclude, device);
      } else if k in d.entries && TorchVisit(d, k, device).Ok? {
        TorchPassFails(TorchVisit(d, k, device).value, keys[1..], exclude, device);
      }
    }
  }

  /** `to_torch` never touches `_batch`, so the batch length is unchanged. */
  lemma TorchPassKeepsLength(d: Dict<Value>, keys: seq<string>, exclude: seq<string>, device: string)
    requires d.Valid()
    ensures LenOf(TorchPass(d, keys, exclude, device).attrs) == LenOf(d)
  {
    TorchPassKeeps(d, keys, exclude, device);
    assert Private("_batch");
  }

  class Batch {
    /** The instance `__dict__`. */
    var attrs: Dict<Value>

    ghost predicate Valid()
      reads this
    {
      attrs.Valid()
    }

    /** The two assignments `__init__` makes before calling `_setup`. */
    constructor Init(keys: seq<string>, items: seq<Value>)
      ensures Valid() && attrs == Initial(keys, items)
    {
      attrs := Initial(keys, items);
    }

    /** `Batch(batch, exclude, only)`. */
    static method Create(items: seq<Value>, exclude: Option<seq<string>>, only: Option<seq<string>>)
      returns (r: Result<Batch>)
      ensures r.Err? <==> Construct(items, exclude, only).Err?
      ensures r.Err? ==> r.error == Construct(items, exclude, only).error
      ensures r.Ok? ==> fresh(r.value) && r.value.Valid() && r.value.attrs == Construct(items, exclude, only).value
    {
      if exclude.Some? && only.Some? {
        return Err(AssertionError);
      }
      var keys := SetupKeys(OrEmpty(exclude), OrEmpty(only));
      var b := new Batch.Init(keys, items);
      var err := b.Setup(items, keys);
      if err.Some? {
        return Err(err.value);
      }
      return Ok(b);
    }

    /** `_setup(set_attr=True)`, given the values of `self._batch` and
        `self._keys`. */
    method Setup(items: seq<Value>, keys: seq<string>) returns (err: Option<Error>)
      requires Valid()
      modifies this
      ensures Valid()
      ensures var r := SetupOutcome(old(attrs), items, keys);
              (err.None? <==> r.Ok?) && (r.Ok? ==> attrs == r.value) && (r.Err? ==> err == Some(r.error))
    {
      if |items| == 0 {
        return Some(IndexError);
      }
      if !items[0].Obj? {
        return Some(AttributeError);
      }
      err := CheckSubset(items, keys);
      if err.Some? {
        return;
      }
      var names := items[0].attrs.order;
      if !Stackable(items, names) {
        return Some(AttributeError);
      }
      var cols := Columns(items, names);
      var j := 0;
      while j < |cols|
        invariant 0 <= j <= |cols|
        invariant attrs.Valid()
        invariant SetAll(attrs, cols[j..]) == SetAll(old(attrs), cols)
      {
        assert cols[j..][1..] == cols[j + 1..];
        attrs := attrs.Set(cols[j].0, cols[j].1);
        j := j + 1;
      }
    }

    /** `batch.set_key(key, value=None)`. */
    method SetKey(key: string, value: Value := NoneValue)
      requires Valid()
      modifies this
      ensures Valid() && attrs == old(attrs).Set(key, value)
    {
      attrs := attrs.Set(key, value);
    }

    /** `len(batch)`. */
    function Len(): (r: Result<nat>)
      reads this
      ensures r == LenOf(attrs)
    {
      LenOf(attrs)
    }

    /** `batch.to_numpy(exclude, only)`. */
    method ToNumpy(exclude: Option<seq<string>>, only: Option<seq<string>>) returns (err: Option<Error>)
      requires Valid()
      modifies this
      ensures Valid()
      ensures exclude.Some? && only.Some? ==> err == Some(AssertionError) && attrs == old(attrs)
      ensures exclude.None? || only.None? ==>
                var p := NumpyPass(old(attrs), VisitedKeys(old(attrs), only), OrEmpty(exclude));
                attrs == p.attrs && err == p.error
    {
      if exclude.Some? && only.Some? {
        return Some(AssertionError);
      }
      var ex := OrEmpty(exclude);
      var keys := VisitedKeys(attrs, only);
      ghost var target := NumpyPass(attrs, keys, ex);
      var i := 0;
      while i < |keys|
        invariant 0 <= i <= |keys|
        invariant attrs.Valid()
        invariant NumpyPass(attrs, keys[i..], ex) == target
      {
        var k := keys[i];
        NumpyPassStep(attrs, keys, i, ex);
        if k !in attrs.entries {
          return Some(KeyError(k));
        }
        attrs := NumpyVisit(attrs, k, ex);
        i := i + 1;
      }
      assert keys[i..] == [];
      return None;
    }

    /** `batch.to_torch(device, exclude, only)`, with torch installed. */
    method ToTorch(device: string, exclude: Option<seq<string>>, only: Option<seq<string>>) returns (err: Option<Error>)
      requires Valid()
      modifies this
      ensures Valid()
      ensures exclude.Some? && only.Some? ==> err == Some(AssertionError) && attrs == old(attrs)
      ensures exclude.None? || only.None? ==>
                var p := TorchPass(old(attrs), VisitedKeys(old(attrs), only), TorchExclude(exclude), device);
                attrs == p.attrs && err == p.error
    {
      if exclude.Some? && only.Some? {
        return Some(AssertionError);
      }
      var ex := TorchExclude(exclude);
      var keys := VisitedKeys(attrs, only);
      ghost var target := TorchPass(attrs, keys, ex, device);
      var i := 0;
      while i < |keys|
        invariant 0 <= i <= |keys|
        invariant attrs.Valid()
        invariant TorchPass(attrs, keys[i..], ex, device) == target
      {
        var k := keys[i];
        TorchPassStep(attrs, keys, i, ex, device);
        if TorchSkipsName(k, ex) {
          i := i + 1;
          continue;
        }
        if k !in attrs.entries {
          return Some(KeyError(k));
        }
        var r := TorchVisit(attrs, k, device);
        if r.Err? {
          return Some(r.error);
        }
        attrs := r.value;
        i := i + 1;
      }
      assert keys[i..] == [];
      return None;
    }

    /** `repr(batch)`, as the key/shape pairs it prints. */
    function Repr(): (r: Result<seq<(string, Option<nat>)>>)
      reads this
      ensures r == ReprOf(attrs)
    {
      ReprOf(attrs)
    }
  }

  /** The subset check loop of `_setup`. */
  method CheckSubset(items: seq<Value>, keys: seq<string>) returns (err: Option<Error>)
    requires |items| > 0
    ensures err == SubsetError(items, keys)
  {
    var i := 1;
    while i < |items|
      invariant 1 <= i <= |items|
      invariant forall j :: 1 <= j < i ==> HasAttrs(items[j], keys)
      invariant SubsetErrorFrom(items, keys, i) == SubsetError(items, keys)
    {
      if !items[i].Obj? {
        return Some(AttributeError);
      }
      if !HasAttrs(items[i], keys) {
        return Some(AssertionError);
      }
      i := i + 1;
    }
    return None;
  }
}

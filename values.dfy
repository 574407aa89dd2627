/** Python-level values shared by the data layer: optional values, the
    exceptions the code raises, an insertion-ordered dictionary (the shape of
    a Python `dict` and of an object's `__dict__`), and an abstract view of the
    values that flow through transitions and batches (numpy arrays, torch
    tensors, lists, dicts and plain objects). Numeric contents are abstract:
    what matters is the kind of each value, not the numbers inside it. */
module Values {

  datatype Option<+T> = None | Some(value: T)

  /** The exceptions raised (or let through) by the modelled code. */
  datatype Error =
    | AssertionError          // a failing `assert` statement
    | IndexError              // `xs[0]` or `xs.pop(0)` on an empty list
    | KeyError(key: string)   // `d[key]` with `key` absent
    | AttributeError          // a missing attribute or `__dict__`
    | TypeError               // a conversion numpy or torch refuses
    | ValueError              // an explicit `raise ValueError(...)`
    | RuntimeError            // an explicit `raise RuntimeError(...)`

  datatype Result<+T> = Ok(value: T) | Err(error: Error)

  /** An insertion-ordered dictionary with string keys: `order` lists the keys
      in insertion order, `entries` maps each key to its value. */
  datatype Dict<+V> = Dict(order: seq<string>, entries: map<string, V>) {

    ghost predicate Valid() {
      && (forall i, j :: 0 <= i < j < |order| ==> order[i] != order[j])
      && (forall k :: k in entries <==> k in order)
    }

    /** `d[k] = v`: a new key goes last, an existing key keeps its place. */
    function Set(k: string, v: V): (d: Dict<V>)
      requires Valid()
      ensures d.Valid()
      ensures d.entries == entries[k := v]
      ensures k in entries ==> d.order == order
      ensures k !in entries ==> d.order == order + [k]
    {
      if k in entries then Dict(order, entries[k := v]) else Dict(order + [k], entries[k := v])
    }
  }

  function EmptyDict<V>(): (d: Dict<V>)
    ensures d.Valid() && d.order == [] && d.entries == map[]
  {
    Dict([], map[])
  }

  /** `d[k] = v` for each pair `(k, v)`, in order. */
  function SetAll<V>(d: Dict<V>, cs: seq<(string, V)>): (r: Dict<V>)
    requires d.Valid()
    ensures r.Valid()
    ensures d.order <= r.order
    decreases |cs|
  {
    if cs == [] then d else SetAll(d.Set(cs[0].0, cs[0].1), cs[1..])
  }

  /** Unfolding `SetAll` once at position `j`. */
  lemma SetAllFrom<V>(d: Dict<V>, cs: seq<(string, V)>, j: nat)
    requires d.Valid() && j < |cs|
    ensures SetAll(d, cs[j..]) == SetAll(d.Set(cs[j].0, cs[j].1), cs[j + 1..])
  {
    assert cs[j..][1..] == cs[j + 1..];
  }

  /** Assigning keys leaves every key that is not assigned alone: present
      with its old value, or still absent. */
  lemma {:induction false} SetAllKeeps<V>(d: Dict<V>, cs: seq<(string, V)>, k: string)
    requires d.Valid()
    requires forall j :: 0 <= j < |cs| ==> cs[j].0 != k
    ensures k in SetAll(d, cs).entries <==> k in d.entries
    ensures k in d.entries ==> SetAll(d, cs).entries[k] == d.entries[k]
    decreases |cs|
  {
    if cs != [] {
      var d' := d.Set(cs[0].0, cs[0].1);
      assert (k in d'.entries <==> k in d.entries) && (k in d.entries ==> d'.entries[k] == d.entries[k]);
      forall j | 0 <= j < |cs[1..]| ensures cs[1..][j].0 != k {
        assert cs[1..][j] == cs[j + 1];
      }
      SetAllKeeps(d', cs[1..], k);
    }
  }

  /** Assigning fresh, distinct keys appends them to the order. */
  lemma {:induction false} SetAllOrder<V>(d: Dict<V>, cs: seq<(string, V)>, names: seq<string>)
    requires d.Valid()
    requires |names| == |cs| && forall j :: 0 <= j < |cs| ==> cs[j].0 == names[j]
    requires Distinct(names) && forall j :: 0 <= j < |names| ==> names[j] !in d.entries
    ensures SetAll(d, cs).order == d.order + names
    decreases |cs|
  {
    if cs != [] {
      var d' := d.Set(names[0], cs[0].1);
      var rest := names[1..];
      forall j | 0 <= j < |rest| ensures rest[j] !in d'.entries && cs[1..][j].0 == rest[j] {
        assert rest[j] == names[j + 1] && cs[1..][j] == cs[j + 1];
      }
      DistinctTail(names);
      SetAllOrder(d', cs[1..], rest);
      AppendHead(d.order, names);
    }
  }

  /** Appending the head of `s`, then its tail, appends `s`. */
  lemma AppendHead<T>(a: seq<T>, s: seq<T>)
    requires s != []
    ensures a + [s[0]] + s[1..] == a + s
  {
    assert [s[0]] + s[1..] == s;
  }

  /** Dropping the head of a sequence of distinct elements keeps them
      distinct. */
  lemma DistinctTail<T>(s: seq<T>)
    requires s != [] && Distinct(s)
    ensures Distinct(s[1..])
  {
    forall i, j | 0 <= i < j < |s[1..]| ensures s[1..][i] != s[1..][j] {
      assert s[1..][i] == s[i + 1] && s[1..][j] == s[j + 1];
    }
  }

  /** Assigning distinct keys sets each of them to its value. */
  lemma {:induction false} SetAllSets<V>(d: Dict<V>, cs: seq<(string, V)>, names: seq<string>)
    requires d.Valid()
    requires |names| == |cs| && forall j :: 0 <= j < |cs| ==> cs[j].0 == names[j]
    requires Distinct(names)
    ensures forall j :: 0 <= j < |cs| ==> names[j] in SetAll(d, cs).entries && SetAll(d, cs).entries[names[j]] == cs[j].1
    decreases |cs|
  {
    if cs != [] {
      var k0 := names[0];
      var d' := d.Set(k0, cs[0].1);
      SetAllSets(d', cs[1..], names[1..]);
      forall j | 1 <= j < |cs| ensures names[j] in SetAll(d, cs).entries && SetAll(d, cs).entries[names[j]] == cs[j].1 {
        assert cs[1..][j - 1] == cs[j] && names[1..][j - 1] == names[j];
      }
      forall j | 0 <= j < |cs[1..]| ensures cs[1..][j].0 != k0 {
        assert cs[1..][j] == cs[j + 1] && names[j + 1] != k0;
      }
      SetAllKeeps(d', cs[1..], k0);
    }
  }

  /** numpy's element types, as far as the model distinguishes them. */
  datatype DType = Numeric | Unicode | ObjectDType

  datatype Value =
    | NoneValue                               // Python `None`
    | Number(n: int)                          // an int or float scalar
    | Flag(b: bool)                           // a Python or numpy bool
    | Text(s: string)                         // a `str`
    | PyList(elems: seq<Value>)               // a Python list
    | NdArray(dtype: DType, rows: seq<Value>) // a numpy array, by its leading axis
    | Tensor(rows: seq<Value>, device: string)// a torch tensor on a device
    | PyDict(dict: Dict<Value>)               // a Python dict with string keys
    | Obj(attrs: Dict<Value>)                 // a plain object, by its `__dict__`

  /** The numpy dtype family `np.array(v)` gives for a value: numbers, bools
      and tensors are numeric, strings are unicode, lists take the joined kind
      of their elements, and anything else becomes an object array. */
  function KindOf(v: Value): DType
  {
    match v
    case Number(_) => Numeric
    case Flag(_) => Numeric
    case Tensor(_, _) => Numeric
    case Text(_) => Unicode
    case NdArray(d, _) => d
    case PyList(e) =>
      if exists x :: x in e && KindOf(x) == ObjectDType then ObjectDType
      else if exists x :: x in e && KindOf(x) == Unicode then Unicode
      else Numeric
    case _ => ObjectDType
  }

  /** The dtype of `np.stack(vs)` / `np.array(vs)`: object wins over unicode,
      unicode over numeric. */
  function StackDType(vs: seq<Value>): (d: DType)
    ensures d == KindOf(PyList(vs))
    ensures d == Numeric <==> forall x :: x in vs ==> KindOf(x) == Numeric
  {
    if exists x :: x in vs && KindOf(x) == ObjectDType then ObjectDType
    else if exists x :: x in vs && KindOf(x) == Unicode then Unicode
    else Numeric
  }

  /** `np.stack(vs)`: one array whose rows are the given values in order. */
  function Stack(vs: seq<Value>): (v: Value)
    ensures v.NdArray? && v.rows == vs
  {
    NdArray(StackDType(vs), vs)
  }

  /** Whether `torch.tensor(v)` accepts a non-array value: numbers, bools and
      (nested) lists of them. */
  predicate TensorReady(v: Value)
  {
    match v
    case Number(_) => true
    case Flag(_) => true
    case PyList(e) => forall x :: x in e ==> TensorReady(x)
    case _ => false
  }

  /** `getattr(v, k)` for an instance attribute. */
  function Attr(v: Value, k: string): Option<Value>
  {
    if v.Obj? && k in v.attrs.entries then Some(v.attrs.entries[k]) else None
  }

  /** Every key of `ks` is an instance attribute of `v`. */
  predicate HasAttrs(v: Value, ks: seq<string>)
  {
    v.Obj? && forall k :: k in ks ==> k in v.attrs.entries
  }

  function Strings(ks: seq<string>): (vs: seq<Value>)
    ensures |vs| == |ks| && forall i :: 0 <= i < |ks| ==> vs[i] == Text(ks[i])
  {
    if ks == [] then [] else [Text(ks[0])] + Strings(ks[1..])
  }

  /** The keys of `keys` not in `drop`, in their original order. */
  function Without(keys: seq<string>, drop: seq<string>): (r: seq<string>)
    ensures forall k :: k in r <==> k in keys && k !in drop
    ensures Distinct(keys) ==> Distinct(r)
  {
    if keys == [] then []
    else if keys[0] in drop then Without(keys[1..], drop)
    else [keys[0]] + Without(keys[1..], drop)
  }

  predicate Distinct<T(==)>(s: seq<T>)
  {
    forall i, j :: 0 <= i < j < |s| ==> s[i] != s[j]
  }
}

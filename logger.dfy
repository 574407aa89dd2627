/** The key flattening of `WandbLogger.log` in milo/utils/logger/wandb.py:
    the keyword arguments lose their `step`, and every dict-valued argument
    `k` is spread one level deep into the data keys `k/k2`. What is handed
    to `wandb.log` is returned instead of sent. */
module Logging {
  import opened Values

  /** The data key of entry `k2` of the dict argument `k`: `f"{k}/{k2}"`. */
  function Joined(k: string, k2: string): string
  {
    k + "/" + k2
  }

  /** A key without a slash, as every Python identifier is. */
  predicate NoSlash(s: string)
  {
    forall i :: 0 <= i < |s| ==> s[i] != '/'
  }

  /** The arguments as `**kwargs` delivers them: an ordered dict whose
      dict-valued arguments are ordered dicts too. */
  ghost predicate WellFormed(args: Dict<Value>)
  {
    && args.Valid()
    && forall k :: k in args.entries && args.entries[k].PyDict? ==> args.entries[k].dict.Valid()
  }

  /** `kwargs.pop("step", None)`: the step, `None` when there is none, and
      the other arguments in their order. */
  function PopStep(kwargs: Dict<Value>): (r: (Value, Dict<Value>))
    requires WellFormed(kwargs)
    ensures WellFormed(r.1)
    ensures r.0 == (if "step" in kwargs.entries then kwargs.entries["step"] else NoneValue)
    ensures forall k :: k in r.1.entries <==> k in kwargs.entries && k != "step"
    ensures forall k :: k in r.1.entries ==> r.1.entries[k] == kwargs.entries[k]
  {
    var step := if "step" in kwargs.entries then kwargs.entries["step"] else NoneValue;
    (step, Dict(Without(kwargs.order, ["step"]), kwargs.entries - {"step"}))
  }

  /** The assignments one dict argument `k` makes, in the order of its
      entries. */
  function Entries(k: string, inner: Dict<Value>): (cs: seq<(string, Value)>)
    requires inner.Valid()
    ensures |cs| == |inner.order|
    ensures forall j :: 0 <= j < |cs| ==> cs[j] == (Joined(k, inner.order[j]), inner.entries[inner.order[j]])
  {
    seq(|inner.order|, j requires 0 <= j < |inner.order| => (Joined(k, inner.order[j]), inner.entries[inner.order[j]]))
  }

  /** One pass of the outer loop: a dict argument assigns each of its
      entries under the joined key, any other argument assigns itself. */
  function LogOne(data: Dict<Value>, k: string, v: Value): (r: Dict<Value>)
    requires data.Valid() && (v.PyDict? ==> v.dict.Valid())
    ensures r.Valid() && data.order <= r.order
    ensures !v.PyDict? ==> k in r.entries && r.entries[k] == v
    ensures v.PyDict? ==> forall j :: 0 <= j < |v.dict.order| ==>
              Joined(k, v.dict.order[j]) in r.entries && r.entries[Joined(k, v.dict.order[j])] == v.dict.entries[v.dict.order[j]]
  {
    if v.PyDict? then
      var names := seq(|v.dict.order|, j requires 0 <= j < |v.dict.order| => Joined(k, v.dict.order[j]));
      JoinedDistinct(k, v.dict);
      SetAllSets(data, Entries(k, v.dict), names);
      SetAll(data, Entries(k, v.dict))
    else data.Set(k, v)
  }

  /** The outer loop over the arguments `keys` of `args`. */
  function Flatten(data: Dict<Value>, args: Dict<Value>, keys: seq<string>): (r: Dict<Value>)
    requires data.Valid() && WellFormed(args)
    requires forall k :: k in keys ==> k in args.entries
    ensures r.Valid() && data.order <= r.order
    decreases |keys|
  {
    if keys == [] then data
    else Flatten(LogOne(data, keys[0], args.entries[keys[0]]), args, keys[1..])
  }

  /** What `log(**kwargs)` hands to `wandb.log`: the step and the data. */
  function Logged(kwargs: Dict<Value>): (r: (Value, Dict<Value>))
    requires WellFormed(kwargs)
    ensures r.0 == (if "step" in kwargs.entries then kwargs.entries["step"] else NoneValue)
    ensures r.1.Valid()
  {
    var (step, args) := PopStep(kwargs);
    (step, Flatten(EmptyDict(), args, args.order))
  }

  /** Whether logging the argument `k` with value `v` assigns the data key
      `x`: for a dict, `x` is `k`, a slash and one of its keys; otherwise
      `x` is `k`. */
  predicate Writes(k: string, v: Value, x: string)
  {
    if v.PyDict? then |x| > |k| && x[..|k| + 1] == k + "/" && x[|k| + 1..] in v.dict.entries
    else x == k
  }

  /** The value the argument `k` assigns to a data key it writes. */
  function Written(k: string, v: Value, x: string): Value
    requires Writes(k, v, x)
  {
    if v.PyDict? then v.dict.entries[x[|k| + 1..]] else v
  }

  /** `log(**kwargs)`: pops the step, then builds the data dict in a nested
      loop over the arguments and the entries of the dict arguments. */
  method Log(kwargs: Dict<Value>) returns (step: Value, data: Dict<Value>)
    requires WellFormed(kwargs)
    ensures (step, data) == Logged(kwargs)
  {
    var popped := PopStep(kwargs);
    step := popped.0;
    var args := popped.1;
    data := EmptyDict();
    ghost var target := Flatten(data, args, args.order);
    var i := 0;
    while i < |args.order|
      invariant 0 <= i <= |args.order| && data.Valid()
      invariant Flatten(data, args, args.order[i..]) == target
    {
      var k := args.order[i];
      var v := args.entries[k];
      FlattenFrom(data, args, args.order, i);
      if v.PyDict? {
        data := LogDict(data, k, v.dict);
      } else {
        data := data.Set(k, v);
      }
      i := i + 1;
    }
  }

  /** The inner loop of `log`: every entry `k2` of the dict argument `k`
      is assigned to the data key `k/k2`, in order. */
  method LogDict(data: Dict<Value>, k: string, inner: Dict<Value>) returns (r: Dict<Value>)
    requires data.Valid() && inner.Valid()
    ensures r == SetAll(data, Entries(k, inner))
  {
    ghost var cs := Entries(k, inner);
    r := data;
    var j := 0;
    while j < |inner.order|
      invariant 0 <= j <= |inner.order| && r.Valid()
      invariant SetAll(r, cs[j..]) == SetAll(data, cs)
    {
      var k2 := inner.order[j];
      SetAllFrom(r, cs, j);
      r := r.Set(k + "/" + k2, inner.entries[k2]);
      j := j + 1;
    }
  }

  /** Unfolding the outer loop once at position `i`. */
  lemma FlattenFrom(data: Dict<Value>, args: Dict<Value>, keys: seq<string>, i: nat)
    requires data.Valid() && WellFormed(args)
    requires forall k :: k in keys ==> k in args.entries
    requires i < |keys|
    ensures Flatten(data, args, keys[i..]) == Flatten(LogOne(data, keys[i], args.entries[keys[i]]), args, keys[i + 1..])
  {
    assert keys[i..][1..] == keys[i + 1..];
  }

  /** For a fixed argument, distinct entries give distinct data keys. */
  lemma JoinedDistinct(k: string, inner: Dict<Value>)
    requires inner.Valid()
    ensures Distinct(seq(|inner.order|, j requires 0 <= j < |inner.order| => Joined(k, inner.order[j])))
  {
    var names := seq(|inner.order|, j requires 0 <= j < |inner.order| => Joined(k, inner.order[j]));
    forall a, b | 0 <= a < b < |names| ensures names[a] != names[b] {
      assert names[a][|k| + 1..] == inner.order[a];
      assert names[b][|k| + 1..] == inner.order[b];
    }
  }

  /** One argument assigns exactly the keys it writes, each to its written
      value, and leaves every other key of the data as it was. */
  lemma LogOneEffect(data: Dict<Value>, k: string, v: Value, x: string)
    requires data.Valid() && (v.PyDict? ==> v.dict.Valid())
    ensures x in LogOne(data, k, v).entries <==> x in data.entries || Writes(k, v, x)
    ensures Writes(k, v, x) ==> LogOne(data, k, v).entries[x] == Written(k, v, x)
    ensures !Writes(k, v, x) && x in data.entries ==> LogOne(data, k, v).entries[x] == data.entries[x]
  {
    if v.PyDict? {
      var inner := v.dict;
      var cs := Entries(k, inner);
      var names := seq(|inner.order|, j requires 0 <= j < |inner.order| => Joined(k, inner.order[j]));
      if Writes(k, v, x) {
        var x2 := x[|k| + 1..];
        var j :| 0 <= j < |inner.order| && inner.order[j] == x2;
        assert x == Joined(k, x2);
        JoinedDistinct(k, inner);
        SetAllSets(data, cs, names);
        assert names[j] == x;
      } else {
        assert forall j :: 0 <= j < |cs| ==> cs[j].0 != x;
        SetAllKeeps(data, cs, x);
      }
    }
  }

  /** Arguments none of which writes `x` leave `x` as it was. */
  lemma {:induction false} FlattenUntouched(data: Dict<Value>, args: Dict<Value>, keys: seq<string>, x: string)
    requires data.Valid() && WellFormed(args)
    requires forall k :: k in keys ==> k in args.entries
    requires forall i :: 0 <= i < |keys| ==> !Writes(keys[i], args.entries[keys[i]], x)
    ensures x in Flatten(data, args, keys).entries <==> x in data.entries
    ensures x in data.entries ==> Flatten(data, args, keys).entries[x] == data.entries[x]
    decreases |keys|
  {
    if keys != [] {
      LogOneEffect(data, keys[0], args.entries[keys[0]], x);
      assert !Writes(keys[0], args.entries[keys[0]], x);
      forall i | 0 <= i < |keys[1..]| ensures !Writes(keys[1..][i], args.entries[keys[1..][i]], x) {
        assert keys[1..][i] == keys[i + 1];
      }
      FlattenUntouched(LogOne(data, keys[0], args.entries[keys[0]]), args, keys[1..], x);
    }
  }

  /** Later assignments win: the last argument that writes `x` decides its
      value. */
  lemma {:induction false} FlattenLastWrite(data: Dict<Value>, args: Dict<Value>, keys: seq<string>, i: nat, x: string)
    requires data.Valid() && WellFormed(args)
    requires forall k :: k in keys ==> k in args.entries
    requires i < |keys| && Writes(keys[i], args.entries[keys[i]], x)
    requires forall i' :: i < i' < |keys| ==> !Writes(keys[i'], args.entries[keys[i']], x)
    ensures x in Flatten(data, args, keys).entries
    ensures Flatten(data, args, keys).entries[x] == Written(keys[i], args.entries[keys[i]], x)
    decreases |keys|
  {
    var d' := LogOne(data, keys[0], args.entries[keys[0]]);
    if i == 0 {
      LogOneEffect(data, keys[0], args.entries[keys[0]], x);
      forall i' | 0 <= i' < |keys[1..]| ensures !Writes(keys[1..][i'], args.entries[keys[1..][i']], x) {
        assert keys[1..][i'] == keys[i' + 1];
      }
      FlattenUntouched(d', args, keys[1..], x);
    } else {
      assert keys[1..][i - 1] == keys[i];
      forall i' | i - 1 < i' < |keys[1..]| ensures !Writes(keys[1..][i'], args.entries[keys[1..][i']], x) {
        assert keys[1..][i'] == keys[i' + 1];
      }
      FlattenLastWrite(d', args, keys[1..], i - 1, x);
    }
  }

  /** The data holds exactly the keys it held before and the keys some
      argument writes. */
  lemma {:induction false} FlattenDomain(data: Dict<Value>, args: Dict<Value>, keys: seq<string>, x: string)
    requires data.Valid() && WellFormed(args)
    requires forall k :: k in keys ==> k in args.entries
    ensures x in Flatten(data, args, keys).entries
            <==> x in data.entries || exists i :: 0 <= i < |keys| && Writes(keys[i], args.entries[keys[i]], x)
    decreases |keys|
  {
    if keys != [] {
      LogOneEffect(data, keys[0], args.entries[keys[0]], x);
      FlattenDomain(LogOne(data, keys[0], args.entries[keys[0]]), args, keys[1..], x);
      SomeWriterCons(args, keys, x);
    }
  }

  /** Some argument of `keys` writes `x` exactly when the first one does or
      some argument after it does. */
  lemma SomeWriterCons(args: Dict<Value>, keys: seq<string>, x: string)
    requires keys != [] && forall k :: k in keys ==> k in args.entries
    ensures (exists i :: 0 <= i < |keys| && Writes(keys[i], args.entries[keys[i]], x))
            <==> Writes(keys[0], args.entries[keys[0]], x)
                 || exists i :: 0 <= i < |keys[1..]| && Writes(keys[1..][i], args.entries[keys[1..][i]], x)
  {
    if exists i :: 0 <= i < |keys[1..]| && Writes(keys[1..][i], args.entries[keys[1..][i]], x) {
      var i :| 0 <= i < |keys[1..]| && Writes(keys[1..][i], args.entries[keys[1..][i]], x);
      assert keys[1..][i] == keys[i + 1];
    }
    if exists i :: 0 <= i < |keys| && Writes(keys[i], args.entries[keys[i]], x) {
      var i :| 0 <= i < |keys| && Writes(keys[i], args.entries[keys[i]], x);
      if i > 0 {
        assert keys[1..][i - 1] == keys[i];
      }
    }
  }

  /** Only a plain argument named `x`, or a dict argument whose name and a
      slash begin `x`, can write `x`. */
  lemma WritesSlash(k: string, v: Value, x: string)
    requires Writes(k, v, x)
    ensures !v.PyDict? ==> x == k
    ensures v.PyDict? ==> |x| > |k| && x[|k|] == '/' && x[..|k|] == k
  {
    if v.PyDict? {
      assert x[..|k| + 1][|k|] == '/';
      assert x[..|k| + 1][..|k|] == k;
    }
  }

  /** A slash-free key is written only by the plain argument of that
      name. */
  lemma SlashFreeWriter(k: string, v: Value, x: string)
    requires NoSlash(x) && Writes(k, v, x)
    ensures !v.PyDict? && x == k
  {
    WritesSlash(k, v, x);
  }

  /** With slash-free argument names, a data key has at most one writer:
      two different arguments never write the same key. */
  lemma OneWriter(k: string, v: Value, k': string, v': Value, x: string)
    requires NoSlash(k) && NoSlash(k') && k != k'
    requires Writes(k, v, x)
    ensures !Writes(k', v', x)
  {
    WritesSlash(k, v, x);
    if Writes(k', v', x) {
      WritesSlash(k', v', x);
    }
  }

  /** The index of an argument in the order `log` visits the arguments. */
  lemma ArgumentAt(kwargs: Dict<Value>, k: string) returns (i: nat)
    requires WellFormed(kwargs) && k in kwargs.entries && k != "step"
    ensures i < |PopStep(kwargs).1.order| && PopStep(kwargs).1.order[i] == k
  {
    var args := PopStep(kwargs).1;
    assert k in args.entries;
    i :| 0 <= i < |args.order| && args.order[i] == k;
  }

  /** When no argument name holds a slash, the argument `k` (not `step`) is
      the only writer of every key it writes, so each such key is logged with
      the value `k` assigns it. */
  lemma {:induction false} LogWrites(kwargs: Dict<Value>, k: string, x: string)
    requires WellFormed(kwargs) && forall a :: a in kwargs.entries ==> NoSlash(a)
    requires k in kwargs.entries && k != "step" && Writes(k, kwargs.entries[k], x)
    ensures x in Logged(kwargs).1.entries
    ensures Logged(kwargs).1.entries[x] == Written(k, kwargs.entries[k], x)
  {
    var args := PopStep(kwargs).1;
    var i := ArgumentAt(kwargs, k);
    forall i' | i < i' < |args.order| ensures !Writes(args.order[i'], args.entries[args.order[i']], x) {
      assert args.order[i'] in kwargs.entries;
      OneWriter(k, kwargs.entries[k], args.order[i'], args.entries[args.order[i']], x);
    }
    FlattenLastWrite(EmptyDict(), args, args.order, i, x);
  }

  /** A plain argument `k` other than `step` is logged under its own name
      with its own value, provided its name has no slash. */
  lemma LogKeepsPlain(kwargs: Dict<Value>, k: string)
    requires WellFormed(kwargs) && k in kwargs.entries && k != "step"
    requires !kwargs.entries[k].PyDict? && NoSlash(k)
    ensures k in Logged(kwargs).1.entries && Logged(kwargs).1.entries[k] == kwargs.entries[k]
  {
    var args := PopStep(kwargs).1;
    var i := ArgumentAt(kwargs, k);
    forall i' | i < i' < |args.order| ensures !Writes(args.order[i'], args.entries[args.order[i']], k) {
      if Writes(args.order[i'], args.entries[args.order[i']], k) {
        SlashFreeWriter(args.order[i'], args.entries[args.order[i']], k);
      }
    }
    FlattenLastWrite(EmptyDict(), args, args.order, i, k);
  }

  /** Every entry `k2` of a dict argument `k` is logged as `k/k2` with the
      entry's value unchanged, whatever it is: a dict inside a dict argument
      is logged as a dict, so only one level is flattened. */
  lemma LogFlattensNested(kwargs: Dict<Value>, k: string, k2: string)
    requires WellFormed(kwargs) && forall a :: a in kwargs.entries ==> NoSlash(a)
    requires k in kwargs.entries && k != "step" && kwargs.entries[k].PyDict?
    requires k2 in kwargs.entries[k].dict.entries
    ensures Joined(k, k2) in Logged(kwargs).1.entries
    ensures Logged(kwargs).1.entries[Joined(k, k2)] == kwargs.entries[k].dict.entries[k2]
  {
    var x := Joined(k, k2);
    assert x[..|k| + 1] == k + "/" && x[|k| + 1..] == k2;
    LogWrites(kwargs, k, x);
  }

  /** The data holds exactly the keys the arguments other than `step`
      write. */
  lemma LogDomain(kwargs: Dict<Value>, x: string)
    requires WellFormed(kwargs)
    ensures x in Logged(kwargs).1.entries
            <==> exists k :: k in kwargs.entries && k != "step" && Writes(k, kwargs.entries[k], x)
  {
    var args := PopStep(kwargs).1;
    FlattenDomain(EmptyDict(), args, args.order, x);
    if exists k :: k in kwargs.entries && k != "step" && Writes(k, kwargs.entries[k], x) {
      var k :| k in kwargs.entries && k != "step" && Writes(k, kwargs.entries[k], x);
      var i := ArgumentAt(kwargs, k);
    }
    if exists i :: 0 <= i < |args.order| && Writes(args.order[i], args.entries[args.order[i]], x) {
      var i :| 0 <= i < |args.order| && Writes(args.order[i], args.entries[args.order[i]], x);
      assert args.order[i] in kwargs.entries && args.order[i] != "step";
    }
  }

  /** `step` never reaches the data: it is popped, and a joined key always
      holds a slash. */
  lemma LogDropsStep(kwargs: Dict<Value>)
    requires WellFormed(kwargs)
    ensures "step" !in Logged(kwargs).1.entries
  {
    LogDomain(kwargs, "step");
    assert NoSlash("step");
    forall k | k in kwargs.entries && k != "step" ensures !Writes(k, kwargs.entries[k], "step") {
      if Writes(k, kwargs.entries[k], "step") {
        SlashFreeWriter(k, kwargs.entries[k], "step");
      }
    }
  }
}

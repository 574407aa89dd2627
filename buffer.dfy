/** The replay buffer (milo/data/buffer/base.py): a list of transitions with
    an optional capacity, evicting first-in-first-out, that exports its whole
    contents or a random draw of them as a `Batch`. */
module Buffers {
  import opened Values
  import opened Transitions
  import opened Batches

  /** The generator `sample` draws from: the default generator every buffer
      shares at class level, or the buffer's own one built by `seed(s)`. The
      draws themselves are not modelled, only which generator is in use. */
  datatype Generator = SharedDefault | Seeded(seed: Option<int>)

  /** `push` on the stored list: when a capacity is set and reached, the
      item at index 0 is popped (an `IndexError` on an empty list) before
      the new one is appended. */
  function Pushed(items: seq<Transition>, capacity: Option<int>, t: Transition): (r: Result<seq<Transition>>)
    ensures r.Err? <==> capacity.Some? && capacity.value <= 0 && items == []
    ensures r.Err? ==> r.error == IndexError
    ensures r.Ok? ==> |r.value| > 0 && r.value[|r.value| - 1] == t
    ensures r.Ok? && (capacity.None? || |items| < capacity.value) ==> r.value[..|r.value| - 1] == items
    ensures r.Ok? && capacity.Some? && |items| >= capacity.value ==> r.value[..|r.value| - 1] == items[1..]
  {
    if capacity.Some? && |items| >= capacity.value then
      if items == [] then Err(IndexError) else Ok(items[1..] + [t])
    else Ok(items + [t])
  }

  /** Pushing each of `ts` in turn; the first failing push stops the run. */
  function PushAll(items: seq<Transition>, capacity: Option<int>, ts: seq<Transition>): Result<seq<Transition>>
    decreases |ts|
  {
    if ts == [] then Ok(items)
    else match Pushed(items, capacity, ts[0])
      case Err(e) => Err(e)
      case Ok(next) => PushAll(next, capacity, ts[1..])
  }

  /** The last `n` items of `s`, or all of `s` when it is shorter. */
  function LastN<T>(s: seq<T>, n: nat): (r: seq<T>)
    ensures |r| == (if |s| <= n then |s| else n)
    ensures forall i :: 0 <= i < |r| ==> r[i] == s[|s| - |r| + i]
  {
    if |s| <= n then s else s[|s| - n..]
  }

  /** Without a capacity the buffer keeps every transition, in push order. */
  lemma {:induction false} PushAllUnbounded(items: seq<Transition>, ts: seq<Transition>)
    ensures PushAll(items, None, ts) == Ok(items + ts)
    decreases |ts|
  {
    if ts != [] {
      assert PushAll(items, None, ts) == PushAll(items + [ts[0]], None, ts[1..]);
      PushAllUnbounded(items + [ts[0]], ts[1..]);
      AppendHead(items, ts);
    } else {
      assert items + ts == items;
    }
  }

  /** One push into a buffer within its capacity `c >= 1` keeps the last `c`
      items. */
  lemma PushKeepsLast(items: seq<Transition>, c: int, t: Transition)
    requires c >= 1 && |items| <= c
    ensures Pushed(items, Some(c), t) == Ok(LastN(items + [t], c))
  {
    if |items| == c {
      assert (items + [t])[|items + [t]| - c..] == items[1..] + [t];
    }
  }

  /** Keeping the last `n` of a sequence, then the last `n` of that extended
      by `u`, is keeping the last `n` of the whole. */
  lemma LastNAppend<T>(s: seq<T>, u: seq<T>, n: nat)
    ensures LastN(LastN(s, n) + u, n) == LastN(s + u, n)
  {
    if |s| > n {
      var p := s[..|s| - n];
      var l := s[|s| - n..];
      assert s == p + l;
      assert s + u == p + (l + u);
      SuffixOfAppend(p, l + u, n);
    }
  }

  /** The last `n` elements of `p + x` lie in `x` when `x` has `n` of them. */
  lemma SuffixOfAppend<T>(p: seq<T>, x: seq<T>, n: nat)
    requires n <= |x|
    ensures (p + x)[|p + x| - n..] == x[|x| - n..]
  {
    var y := (p + x)[|p + x| - n..];
    var z := x[|x| - n..];
    forall i | 0 <= i < n ensures y[i] == z[i] {
      assert y[i] == (p + x)[|p| + |x| - n + i];
    }
  }

  /** FIFO eviction: after pushing `ts` into a buffer of capacity `c >= 1`
      holding at most `c` items, it holds exactly the last `c` of the old
      contents followed by `ts` (so, from empty, the last `min(|ts|, c)`
      pushes, in push order). */
  lemma {:induction false} PushAllKeepsLast(items: seq<Transition>, c: int, ts: seq<Transition>)
    requires c >= 1 && |items| <= c
    ensures PushAll(items, Some(c), ts) == Ok(LastN(items + ts, c))
    decreases |ts|
  {
    if ts == [] {
      assert items + ts == items;
    } else {
      PushKeepsLast(items, c, ts[0]);
      var next := LastN(items + [ts[0]], c);
      PushAllKeepsLast(next, c, ts[1..]);
      LastNAppend(items + [ts[0]], ts[1..], c);
      AppendHead(items, ts);
    }
  }

  /** With capacity at most 0 every push fails and the buffer stays empty. */
  lemma {:induction false} PushAllNonPositive(c: int, ts: seq<Transition>)
    requires c <= 0 && ts != []
    ensures PushAll([], Some(c), ts) == Err(IndexError)
  {
  }

  /** The stored transitions as the objects `Batch` reads. */
  function Objects(ts: seq<Transition>): (vs: seq<Value>)
    ensures |vs| == |ts| && forall i :: 0 <= i < |ts| ==> vs[i] == AsObject(ts[i])
  {
    seq(|ts|, i requires 0 <= i < |ts| => AsObject(ts[i]))
  }

  /** What `Generator.choice(buffer, size, replace)` may return: `size`
      positions of the buffer, none repeated when drawing without
      replacement. */
  predicate ValidDraw(picks: seq<nat>, n: nat, size: int, replace: bool)
  {
    && |picks| == size
    && (forall i :: 0 <= i < |picks| ==> picks[i] < n)
    && (!replace ==> forall i, j :: 0 <= i < j < |picks| ==> picks[i] != picks[j])
  }

  /** The arguments `choice` refuses with `ValueError`: a negative size, a
      non-empty draw from an empty buffer, or more distinct draws than
      there are items. */
  predicate DrawRefused(n: nat, size: int, replace: bool)
  {
    size < 0 || (n == 0 && size != 0) || (!replace && size > n)
  }

  /** Whenever `choice` accepts its arguments a draw exists. */
  lemma DrawExists(n: nat, size: int, replace: bool) returns (picks: seq<nat>)
    requires !DrawRefused(n, size, replace)
    ensures ValidDraw(picks, n, size, replace)
  {
    if replace {
      picks := seq(size, _ => 0);
    } else {
      picks := seq(size, i requires 0 <= i => i);
    }
  }

  /** The transitions at the drawn positions, in draw order. */
  function Drawn(ts: seq<Transition>, picks: seq<nat>): (ds: seq<Transition>)
    requires forall i :: 0 <= i < |picks| ==> picks[i] < |ts|
    ensures |ds| == |picks| && forall i :: 0 <= i < |picks| ==> ds[i] == ts[picks[i]]
  {
    seq(|picks|, i requires 0 <= i < |picks| => ts[picks[i]])
  }

  /** `only` names fields a transition has. */
  predicate FieldsOnly(only: Option<seq<string>>)
  {
    forall k :: k in OrEmpty(only) ==> k in FieldNames
  }

  /** Transitions meet every demand `Batch` makes of its records when
      `only` names transition fields: each has the selected keys, the first
      has the nine fields in order and no `_keys` or `_batch`. */
  lemma TransitionsFit(ts: seq<Transition>, exclude: Option<seq<string>>, only: Option<seq<string>>)
    requires exclude.None? || only.None?
    requires FieldsOnly(only)
    requires ts != []
    ensures var items := Objects(ts);
            && items[0].Obj? && items[0].attrs.Valid() && items[0].attrs.order == FieldNames
            && "_keys" !in items[0].attrs.entries && "_batch" !in items[0].attrs.entries
            && Construct(items, exclude, only).Ok?
  {
    var items := Objects(ts);
    var keys := SelectedKeys(exclude, only);
    assert DeclaredKeys == FieldNames;
    forall j | 0 <= j < |items| ensures HasAttrs(items[j], keys) {
      forall k | k in keys ensures k in items[j].attrs.entries {
        assert k in FieldNames;
      }
    }
    assert Stackable(items, items[0].attrs.order);
    FieldNamesNotBookkeeping();
  }

  /** A batch built from transitions, selecting only transition fields,
      succeeds on a non-empty list and has one row per transition; an empty
      list fails with `IndexError`. */
  lemma TransitionsBatch(ts: seq<Transition>, exclude: Option<seq<string>>, only: Option<seq<string>>)
    requires exclude.None? || only.None?
    requires FieldsOnly(only)
    ensures ts == [] ==> Construct(Objects(ts), exclude, only) == Err(IndexError)
    ensures ts != [] ==> Construct(Objects(ts), exclude, only).Ok?
    ensures ts != [] ==> LenOf(Construct(Objects(ts), exclude, only).value) == Ok(|ts|)
  {
    if ts != [] {
      TransitionsFit(ts, exclude, only);
      ConstructedLength(Objects(ts), exclude, only);
    }
  }

  /** Each of the nine fields of a batch built from transitions is a column
      listing that field of every transition in storage order. */
  lemma TransitionsColumns(ts: seq<Transition>, exclude: Option<seq<string>>, only: Option<seq<string>>)
    requires exclude.None? || only.None?
    requires FieldsOnly(only)
    requires ts != []
    ensures Construct(Objects(ts), exclude, only).Ok?
    ensures var e := Construct(Objects(ts), exclude, only).value.entries;
            forall k :: k in FieldNames ==>
              k in e && e[k].NdArray? && |e[k].rows| == |ts| &&
              forall i :: 0 <= i < |ts| ==> Some(e[k].rows[i]) == Attr(AsObject(ts[i]), k)
  {
    TransitionsFit(ts, exclude, only);
    BatchColumns(Objects(ts), exclude, only);
  }

  class ReplayBuffer {
    /** `self._seed`. */
    var seedValue: Option<int>
    /** `self._random`. */
    var rng: Generator
    /** `self.capacity`, as given. */
    var capacity: Option<int>
    /** `self.buffer`. */
    var items: seq<Transition>

    /** A buffer never holds more than a positive capacity, and nothing at
        all under a capacity of at most 0. */
    ghost predicate Valid()
      reads this
    {
      capacity.Some? ==> |items| <= (if capacity.value < 0 then 0 else capacity.value)
    }

    /** `ReplayBuffer(capacity, seed)`: empty; the seed is recorded but the
        generator stays the shared default until `seed` is called. */
    constructor (capacity: Option<int>, seed: Option<int>)
      ensures Valid()
      ensures this.capacity == capacity && seedValue == seed
      ensures items == [] && rng == SharedDefault
    {
      seedValue := seed;
      rng := SharedDefault;
      this.capacity := capacity;
      items := [];
    }

    /** `buffer.seed(s)`: records the seed and builds a generator from it. */
    method Seed(s: Option<int>)
      modifies this
      ensures seedValue == s && rng == Seeded(s)
      ensures capacity == old(capacity) && items == old(items)
    {
      seedValue := s;
      rng := Seeded(s);
    }

    /** `buffer.reset()`. */
    method Reset()
      modifies this
      ensures Valid() && items == [] && Len() == 0
      ensures capacity == old(capacity) && seedValue == old(seedValue) && rng == old(rng)
    {
      items := [];
    }

    /** `buffer.push(t)`; on `IndexError` nothing changes. */
    method Push(t: Transition) returns (err: Option<Error>)
      requires Valid()
      modifies this
      ensures Valid()
      ensures var r := Pushed(old(items), capacity, t);
              (err.None? <==> r.Ok?) && (r.Ok? ==> items == r.value)
              && (r.Err? ==> err == Some(r.error) && items == old(items))
      ensures capacity == old(capacity) && seedValue == old(seedValue) && rng == old(rng)
    {
      if capacity.Some? && |items| >= capacity.value {
        if items == [] {
          return Some(IndexError);
        }
        items := items[1..];
      }
      items := items + [t];
      return None;
    }

    /** `buffer.sample(batch_size, replace, exclude, only)`: the positions
        drawn and the batch built from the transitions at them. */
    method Sample(batchSize: int, replace: bool, exclude: Option<seq<string>>, only: Option<seq<string>>)
      returns (r: Result<Batch>, picks: seq<nat>)
      ensures DrawRefused(|items|, batchSize, replace) ==> r == Err(ValueError)
      ensures !DrawRefused(|items|, batchSize, replace) ==>
                && ValidDraw(picks, |items|, batchSize, replace)
                && var c := Construct(Objects(Drawn(items, picks)), exclude, only);
                   (r.Err? <==> c.Err?) && (r.Err? ==> r.error == c.error)
                   && (r.Ok? ==> fresh(r.value) && r.value.Valid() && r.value.attrs == c.value)
    {
      if DrawRefused(|items|, batchSize, replace) {
        return Err(ValueError), [];
      }
      var n := |items|;
      ghost var some := DrawExists(n, batchSize, replace);
      picks :| ValidDraw(picks, n, batchSize, replace);
      assert ValidDraw(picks, n, batchSize, replace);
      r := Batch.Create(Objects(Drawn(items, picks)), exclude, only);
    }

    /** `buffer.to_batch(exclude, only)`: a batch over every stored
        transition, in storage order. */
    method ToBatch(exclude: Option<seq<string>>, only: Option<seq<string>>) returns (r: Result<Batch>)
      ensures var c := Construct(Objects(items), exclude, only);
              (r.Err? <==> c.Err?) && (r.Err? ==> r.error == c.error)
              && (r.Ok? ==> fresh(r.value) && r.value.Valid() && r.value.attrs == c.value)
    {
      r := Batch.Create(Objects(items), exclude, only);
    }

    /** `len(buffer)`. */
    function Len(): (n: nat)
      reads this
      ensures n == |items|
    {
      |items|
    }
  }
}

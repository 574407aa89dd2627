/** The collector (milo/data/collector.py): steps a vector environment,
    records every step in a dictionary of seven parallel lists and keeps
    step, episode and time counters.

    The environment is an oracle: `env.reset` answers with a given
    `ResetReply`, and the successive `env.step` calls answer with the
    entries of a given script of `StepReply` values (the action the
    collector samples from the action space is part of each entry). The
    clock reads that bracket a collection are two given reals. */
module Collectors {
  import opened Values

  /** The `env` argument: a single environment (wrapped into a one-element
      vector environment) or an environment that already is vectorised. */
  datatype EnvKind = SingleEnv | VectorEnv(numEnvs: nat)

  function NumEnvs(kind: EnvKind): (n: nat)
    ensures kind.SingleEnv? ==> n == 1
    ensures kind.VectorEnv? ==> n == kind.numEnvs
  {
    if kind.SingleEnv? then 1 else kind.numEnvs
  }

  /** What `env.reset(**kwargs)` returns. */
  datatype ResetReply = ResetReply(obs: Value, info: Value)

  /** One iteration's answers: the sampled action and what `env.step`
      returns for it, with one termination and truncation flag per
      environment. */
  datatype StepReply = StepReply(
    action: Value, nextObs: Value, reward: Value,
    terminated: seq<bool>, truncated: seq<bool>, info: Value)

  /** The environment answers with one flag of each kind per environment. */
  predicate WellFormed(script: seq<StepReply>, envNum: nat)
  {
    forall i :: 0 <= i < |script| ==>
      |script[i].terminated| == envNum && |script[i].truncated| == envNum
  }

  /** Each step has as many termination flags as truncation flags. */
  predicate FlagsMatch(script: seq<StepReply>)
  {
    forall i :: 0 <= i < |script| ==> |script[i].terminated| == |script[i].truncated|
  }

  /** `sum(terminated | truncated)`: the environments whose episode ended. */
  function Dones(terminated: seq<bool>, truncated: seq<bool>): (n: nat)
    requires |terminated| == |truncated|
    ensures n <= |terminated|
  {
    if terminated == [] then 0
    else (if terminated[0] || truncated[0] then 1 else 0) + Dones(terminated[1..], truncated[1..])
  }

  /** No episode ends exactly when no flag is raised, and every environment's
      episode ends exactly when each has one of its two flags raised. */
  lemma {:induction false} DonesCounts(terminated: seq<bool>, truncated: seq<bool>)
    requires |terminated| == |truncated|
    ensures Dones(terminated, truncated) == 0 <==>
              forall i :: 0 <= i < |terminated| ==> !terminated[i] && !truncated[i]
    ensures Dones(terminated, truncated) == |terminated| <==>
              forall i :: 0 <= i < |terminated| ==> terminated[i] || truncated[i]
    decreases |terminated|
  {
    if terminated != [] {
      DonesCounts(terminated[1..], truncated[1..]);
      assert forall i :: 1 <= i < |terminated| ==> terminated[1..][i - 1] == terminated[i] && truncated[1..][i - 1] == truncated[i];
    }
  }

  /** `num_collected_episodes` after the first `k` steps of the script. */
  function Episodes(script: seq<StepReply>, k: nat): (r: nat)
    requires k <= |script|
    requires FlagsMatch(script)
    ensures k == 0 ==> r == 0
    ensures k > 0 ==> r >= Dones(script[k - 1].terminated, script[k - 1].truncated)
  {
    if k == 0 then 0
    else Episodes(script, k - 1) + Dones(script[k - 1].terminated, script[k - 1].truncated)
  }

  /** The episode count never decreases from one step to the next. */
  lemma {:induction false} EpisodesMonotone(script: seq<StepReply>, j: nat, k: nat)
    requires j <= k <= |script|
    requires FlagsMatch(script)
    ensures Episodes(script, j) <= Episodes(script, k)
    decreases k - j
  {
    if j < k {
      EpisodesMonotone(script, j, k - 1);
    }
  }

  /** `collect` checks its arguments: exactly one of `n_step` and
      `n_episode` must be given, and it must be positive. */
  function CheckArgs(nStep: Option<int>, nEpisode: Option<int>): (e: Option<Error>)
    ensures e.None? <==> (nStep.Some? && nEpisode.None? && nStep.value > 0)
                         || (nStep.None? && nEpisode.Some? && nEpisode.value > 0)
    ensures (nStep.Some? <==> nEpisode.Some?) ==> e == Some(ValueError)
    ensures e.Some? && (nStep.Some? != nEpisode.Some?) ==> e == Some(AssertionError)
  {
    if nStep.Some? == nEpisode.Some? then Some(ValueError)
    else if nStep.Some? && nStep.value <= 0 then Some(AssertionError)
    else if nEpisode.Some? && nEpisode.value <= 0 then Some(AssertionError)
    else None
  }

  /** The loop of `collect` breaks after its `k`-th step (counting from 1). */
  predicate Stops(nStep: Option<int>, nEpisode: Option<int>, script: seq<StepReply>, k: nat)
    requires k <= |script|
    requires FlagsMatch(script)
  {
    (nStep.Some? && k >= nStep.value) || (nEpisode.Some? && Episodes(script, k) >= nEpisode.value)
  }

  /** The first step from `j` on after which the loop breaks, if the script
      reaches it. */
  function FirstStopFrom(nStep: Option<int>, nEpisode: Option<int>, script: seq<StepReply>, j: nat): (r: Option<nat>)
    requires 1 <= j
    requires FlagsMatch(script)
    ensures r.Some? ==> j <= r.value <= |script| && Stops(nStep, nEpisode, script, r.value)
    decreases |script| + 1 - j
  {
    if j > |script| then None
    else if Stops(nStep, nEpisode, script, j) then Some(j)
    else FirstStopFrom(nStep, nEpisode, script, j + 1)
  }

  /** No step between `j` and the one `FirstStopFrom` finds breaks the loop;
      when it finds none, no step up to the end of the script does. */
  lemma {:induction false} FirstStopFromIsFirst(nStep: Option<int>, nEpisode: Option<int>, script: seq<StepReply>, j: nat)
    requires 1 <= j
    requires FlagsMatch(script)
    ensures var r := FirstStopFrom(nStep, nEpisode, script, j);
            && (r.Some? ==> forall m :: j <= m < r.value ==> !Stops(nStep, nEpisode, script, m))
            && (r.None? ==> forall m :: j <= m <= |script| ==> !Stops(nStep, nEpisode, script, m))
    decreases |script| + 1 - j
  {
    if j <= |script| && !Stops(nStep, nEpisode, script, j) {
      FirstStopFromIsFirst(nStep, nEpisode, script, j + 1);
    }
  }

  /** The number of steps `collect` takes on `script`: the first step after
      which the loop breaks, or `None` when the script ends before it. */
  function StepsTaken(nStep: Option<int>, nEpisode: Option<int>, script: seq<StepReply>): (r: Option<nat>)
    requires FlagsMatch(script)
    ensures r.Some? ==> 1 <= r.value <= |script| && Stops(nStep, nEpisode, script, r.value)
  {
    FirstStopFrom(nStep, nEpisode, script, 1)
  }

  /** The loop breaks at the first step at which its condition holds, and it
      never breaks when no step of the script meets it. */
  lemma StepsTakenIsFirst(nStep: Option<int>, nEpisode: Option<int>, script: seq<StepReply>)
    requires FlagsMatch(script)
    ensures var r := StepsTaken(nStep, nEpisode, script);
            && (r.Some? ==> forall m :: 1 <= m < r.value ==> !Stops(nStep, nEpisode, script, m))
            && (r.None? <==> forall m :: 1 <= m <= |script| ==> !Stops(nStep, nEpisode, script, m))
  {
    FirstStopFromIsFirst(nStep, nEpisode, script, 1);
  }

  /** One more step of the loop, which has not yet reached the step `k` at
      which it breaks: it breaks now exactly when this is step `k`, and
      otherwise the break still lies ahead at `k`. */
  lemma StepAdvances(nStep: Option<int>, nEpisode: Option<int>, script: seq<StepReply>, c: nat, k: nat)
    requires FlagsMatch(script)
    requires c < k && FirstStopFrom(nStep, nEpisode, script, c + 1) == Some(k)
    ensures Stops(nStep, nEpisode, script, c + 1) <==> c + 1 == k
    ensures c + 1 < k ==> FirstStopFrom(nStep, nEpisode, script, c + 2) == Some(k)
    ensures Episodes(script, c + 1) == Episodes(script, c) + Dones(script[c].terminated, script[c].truncated)
  {
  }

  /** With `n_step = n`, the loop runs exactly `n` steps. */
  lemma NStepExact(n: int, script: seq<StepReply>)
    requires n > 0 && |script| >= n
    requires FlagsMatch(script)
    ensures StepsTaken(Some(n), None, script) == Some(n)
  {
    StepsTakenIsFirst(Some(n), None, script);
    assert Stops(Some(n), None, script, n);
  }

  /** With `n_episode = n`, the loop stops at the first step at which the
      running count of finished episodes reaches `n`, never earlier; and it
      goes on as long as the script has not reached `n`. */
  lemma NEpisodeFirstReach(n: int, script: seq<StepReply>)
    requires n > 0
    requires FlagsMatch(script)
    ensures var r := StepsTaken(None, Some(n), script);
            && (r.Some? ==> Episodes(script, r.value) >= n
                            && forall m :: 1 <= m < r.value ==> Episodes(script, m) < n)
            && (r.None? <==> Episodes(script, |script|) < n)
  {
    var r := StepsTaken(None, Some(n), script);
    StepsTakenIsFirst(None, Some(n), script);
    if r.Some? {
      forall m | 1 <= m < r.value ensures Episodes(script, m) < n {
        assert !Stops(None, Some(n), script, m);
      }
      EpisodesMonotone(script, r.value, |script|);
    } else if |script| >= 1 {
      assert !Stops(None, Some(n), script, |script|);
    }
  }

  /** The keys of the dict `_add_to_buffer` creates, in creation order. */
  const LogKeys: seq<string> := ["obs", "actions", "rewards", "next_obs", "terminated", "truncated", "infos"]

  /** `self.buffer` once created: the dict of seven lists, one field per
      key; `List(log, j)` is the list under `LogKeys[j]`. */
  datatype Log = Log(obs: seq<Value>, actions: seq<Value>, rewards: seq<Value>, nextObs: seq<Value>,
                     terminated: seq<Value>, truncated: seq<Value>, infos: seq<Value>)

  function List(log: Log, j: nat): seq<Value>
    requires j < |LogKeys|
  {
    if j == 0 then log.obs
    else if j == 1 then log.actions
    else if j == 2 then log.rewards
    else if j == 3 then log.nextObs
    else if j == 4 then log.terminated
    else if j == 5 then log.truncated
    else log.infos
  }

  /** The dict `_add_to_buffer` creates on first use: seven empty lists. */
  function EmptyLog(): (log: Log)
    ensures Parallel(log, 0)
  {
    Log([], [], [], [], [], [], [])
  }

  /** The seven lists all have length `n`. */
  predicate Parallel(log: Log, n: nat)
  {
    forall j :: 0 <= j < |LogKeys| ==> |List(log, j)| == n
  }

  /** One recorded step, as `_add_to_buffer` receives it. */
  datatype Row = Row(obs: Value, actions: Value, rewards: Value, nextObs: Value,
                     terminated: Value, truncated: Value, infos: Value)

  /** The value of a row that goes to the list under `LogKeys[j]`. */
  function Entry(r: Row, j: nat): Value
    requires j < |LogKeys|
  {
    if j == 0 then r.obs
    else if j == 1 then r.actions
    else if j == 2 then r.rewards
    else if j == 3 then r.nextObs
    else if j == 4 then r.terminated
    else if j == 5 then r.truncated
    else r.infos
  }

  /** `_add_to_buffer` on an existing log. */
  function AddRow(log: Log, r: Row): (l: Log)
    ensures Parallel(log, |log.obs|) ==> Parallel(l, |log.obs| + 1)
  {
    var l := Log(log.obs + [r.obs], log.actions + [r.actions], log.rewards + [r.rewards],
                 log.nextObs + [r.nextObs], log.terminated + [r.terminated],
                 log.truncated + [r.truncated], log.infos + [r.infos]);
    assert forall j :: 0 <= j < |LogKeys| ==> |List(l, j)| == |List(log, j)| + 1;
    l
  }

  /** Each of the seven lists gets its entry of the row appended, and no
      list gets anything else. */
  lemma AddRowAppendsOne(log: Log, r: Row)
    ensures forall j :: 0 <= j < |LogKeys| ==> List(AddRow(log, r), j) == List(log, j) + [Entry(r, j)]
  {
  }

  /** Appending rows in order. */
  function AddRows(log: Log, rows: seq<Row>): Log
    decreases |rows|
  {
    if rows == [] then log else AddRows(AddRow(log, rows[0]), rows[1..])
  }

  /** The entries of `rows` that go to the list under `LogKeys[j]`, in row
      order. */
  function Column(rows: seq<Row>, j: nat): (c: seq<Value>)
    requires j < |LogKeys|
    ensures |c| == |rows| && forall i :: 0 <= i < |rows| ==> c[i] == Entry(rows[i], j)
  {
    seq(|rows|, i requires 0 <= i < |rows| => Entry(rows[i], j))
  }

  /** Appending `rows` extends each of the seven lists by its entries of
      the rows, in row order. */
  lemma {:induction false} AddRowsAppends(log: Log, rows: seq<Row>)
    ensures forall j :: 0 <= j < |LogKeys| ==> List(AddRows(log, rows), j) == List(log, j) + Column(rows, j)
    decreases |rows|
  {
    if rows == [] {
      forall j | 0 <= j < |LogKeys| ensures List(log, j) + Column(rows, j) == List(log, j) {
      }
    } else {
      AddRowAppendsOne(log, rows[0]);
      AddRowsAppends(AddRow(log, rows[0]), rows[1..]);
      forall j | 0 <= j < |LogKeys| ensures Column(rows, j) == [Entry(rows[0], j)] + Column(rows[1..], j) {
      }
    }
  }

  /** Appending rows to parallel lists of length `n` keeps them parallel,
      at length `n + |rows|`. */
  lemma AddRowsParallel(log: Log, n: nat, rows: seq<Row>)
    requires Parallel(log, n)
    ensures Parallel(AddRows(log, rows), n + |rows|)
  {
    AddRowsAppends(log, rows);
  }

  /** The flags of one step as the numpy bool array stored in the log. */
  function FlagArray(flags: seq<bool>): (v: Value)
  {
    NdArray(Numeric, seq(|flags|, i requires 0 <= i < |flags| => Flag(flags[i])))
  }

  /** The row recorded for step `s` taken from observation `obs`. */
  function RowOf(obs: Value, s: StepReply): Row
  {
    Row(obs, s.action, s.reward, s.nextObs, FlagArray(s.terminated), FlagArray(s.truncated), s.info)
  }

  /** The rows the loop records from observation `obs` on: each step is
      recorded with the observation it was taken from, and its next
      observation becomes the observation of the following step. */
  function Transcript(obs: Value, steps: seq<StepReply>): seq<Row>
    decreases |steps|
  {
    if steps == [] then [] else [RowOf(obs, steps[0])] + Transcript(steps[0].nextObs, steps[1..])
  }

  /** The recorded rows chain: the first starts from the pending
      observation, every later one from its predecessor's next observation,
      and each holds its own step's answers. */
  lemma {:induction false} TranscriptChains(obs: Value, steps: seq<StepReply>)
    ensures var t := Transcript(obs, steps);
      && |t| == |steps|
      && (|t| > 0 ==> t[0].obs == obs)
      && (forall i :: 1 <= i < |t| ==> t[i].obs == t[i - 1].nextObs)
      && (forall i :: 0 <= i < |t| ==>
            && t[i].actions == steps[i].action && t[i].rewards == steps[i].reward
            && t[i].nextObs == steps[i].nextObs && t[i].infos == steps[i].info
            && t[i].terminated == FlagArray(steps[i].terminated)
            && t[i].truncated == FlagArray(steps[i].truncated))
    decreases |steps|
  {
    if steps != [] {
      TranscriptChains(steps[0].nextObs, steps[1..]);
      var t := Transcript(obs, steps);
      var rest := Transcript(steps[0].nextObs, steps[1..]);
      assert t == [RowOf(obs, steps[0])] + rest;
      forall i | 1 <= i < |t| ensures t[i] == rest[i - 1] && steps[i] == steps[1..][i - 1] {
      }
    }
  }

  /** Recording the step at `i` and then the rest of the steps up to `k`
      is recording the steps from `i` to `k`. */
  lemma RecordOneStep(log: Log, obs: Value, script: seq<StepReply>, i: nat, k: nat)
    requires i < k <= |script|
    ensures AddRows(log, Transcript(obs, script[i..k]))
            == AddRows(AddRow(log, RowOf(obs, script[i])), Transcript(script[i].nextObs, script[i + 1..k]))
  {
    assert script[i..k] == [script[i]] + script[i + 1..k];
  }

  /** The log a (possibly absent) buffer stands for. */
  function LogOf(buffer: Option<Log>): Log
  {
    if buffer.None? then EmptyLog() else buffer.value
  }

  /** `self.buffer` is absent, or holds seven parallel lists. */
  predicate LogShaped(buffer: Option<Log>)
  {
    buffer.Some? ==> Parallel(buffer.value, |buffer.value.obs|)
  }

  /** `max(end - start, 1e-9)`: the collection time `collect` adds, never
      below a nanosecond, with both clock readings given as parameters. */
  function Elapsed(startTime: real, endTime: real): (t: real)
    ensures t >= 0.000000001 && t >= endTime - startTime
    ensures t == endTime - startTime || t == 0.000000001
  {
    if endTime - startTime >= 0.000000001 then endTime - startTime else 0.000000001
  }

  /** The keyword arguments `reset_env` passes to `env.reset`: the given
      ones (none when absent), with `seed` added when a seed is given;
      a seed given both ways is refused. */
  function ResetKwargs(seed: Option<int>, kwargs: Option<Dict<Value>>): (r: Result<Dict<Value>>)
    requires kwargs.Some? ==> kwargs.value.Valid()
    ensures r.Err? <==> seed.Some? && kwargs.Some? && "seed" in kwargs.value.entries
    ensures r.Err? ==> r.error == ValueError
    ensures r.Ok? ==> r.value.Valid()
    ensures r.Ok? && seed.Some? ==> "seed" in r.value.entries && r.value.entries["seed"] == Number(seed.value)
    ensures r.Ok? ==> forall k :: k != "seed" || seed.None? ==>
              (k in r.value.entries <==> kwargs.Some? && k in kwargs.value.entries)
    ensures r.Ok? && kwargs.Some? ==> forall k :: k in kwargs.value.entries ==>
              k in r.value.entries && r.value.entries[k] == kwargs.value.entries[k]
  {
    var d := if kwargs.Some? then kwargs.value else EmptyDict();
    if seed.Some? && "seed" in d.entries then Err(ValueError)
    else if seed.Some? then Ok(d.Set("seed", Number(seed.value)))
    else Ok(d)
  }

  class Collector {
    /** `self.env_num`. */
    var envNum: nat
    var explorationNoise: bool
    /** `self.buffer`: `None` until the first recorded step. */
    var buffer: Option<Log>
    var collectStep: int
    var collectEpisode: int
    var collectTime: real
    /** `self._pre_obs` and `self._pre_info`. */
    var preObs: Value
    var preInfo: Value
    var isClosed: bool

    ghost predicate Valid()
      reads this
    {
      LogShaped(buffer)
    }

    /** Every field but `buffer` is as it was. */
    twostate predicate OnlyBufferChanged()
      reads this
    {
      && envNum == old(envNum) && explorationNoise == old(explorationNoise)
      && preObs == old(preObs) && preInfo == old(preInfo) && isClosed == old(isClosed)
      && collectStep == old(collectStep) && collectEpisode == old(collectEpisode)
      && collectTime == old(collectTime)
    }

    /** `Collector(policy, env, buffer, exploration_noise)`: the `buffer`
        argument is ignored and the recorded log starts absent. */
    constructor (env: EnvKind, bufferArg: Value, explorationNoise: bool)
      ensures Valid()
      ensures envNum == NumEnvs(env) && this.explorationNoise == explorationNoise
      ensures buffer == None
      ensures collectStep == 0 && collectEpisode == 0 && collectTime == 0.0
      ensures preObs == NoneValue && preInfo == NoneValue && !isClosed
    {
      envNum := NumEnvs(env);
      this.explorationNoise := explorationNoise;
      buffer := None;
      collectStep, collectEpisode, collectTime := 0, 0, 0.0;
      preObs, preInfo := NoneValue, NoneValue;
      isClosed := false;
    }

    /** `collector.close()`. */
    method Close()
      modifies this
      ensures preObs == NoneValue && preInfo == NoneValue && isClosed
      ensures envNum == old(envNum) && buffer == old(buffer)
      ensures collectStep == old(collectStep) && collectEpisode == old(collectEpisode)
      ensures collectTime == old(collectTime) && explorationNoise == old(explorationNoise)
    {
      preObs, preInfo := NoneValue, NoneValue;
      isClosed := true;
    }

    /** `collector.is_closed`. */
    function IsClosed(): (b: bool)
      reads this
      ensures b == isClosed
    {
      isClosed
    }

    /** `collector.reset_stat()`. */
    method ResetStat()
      modifies this
      ensures collectStep == 0 && collectEpisode == 0 && collectTime == 0.0
      ensures envNum == old(envNum) && buffer == old(buffer) && isClosed == old(isClosed)
      ensures preObs == old(preObs) && preInfo == old(preInfo) && explorationNoise == old(explorationNoise)
    {
      collectStep, collectEpisode, collectTime := 0, 0, 0.0;
    }

    /** `collector.reset_buffer()`: does nothing. */
    method ResetBuffer()
      ensures buffer == old(buffer)
    {
    }

    /** `collector.reset_env(seed, gym_reset_kwargs)`, with `reply` the
        environment's answer; `r` is the keyword arguments passed on to
        `env.reset`. */
    method ResetEnv(seed: Option<int>, kwargs: Option<Dict<Value>>, reply: ResetReply) returns (r: Result<Dict<Value>>)
      requires kwargs.Some? ==> kwargs.value.Valid()
      modifies this
      ensures r == ResetKwargs(seed, kwargs)
      ensures r.Ok? ==> preObs == reply.obs && preInfo == reply.info
      ensures r.Err? ==> preObs == old(preObs) && preInfo == old(preInfo)
      ensures envNum == old(envNum) && buffer == old(buffer) && isClosed == old(isClosed)
      ensures collectStep == old(collectStep) && collectEpisode == old(collectEpisode)
      ensures collectTime == old(collectTime) && explorationNoise == old(explorationNoise)
    {
      var d := if kwargs.Some? then kwargs.value else EmptyDict();
      if seed.Some? && "seed" in d.entries {
        return Err(ValueError);
      }
      if seed.Some? {
        d := d.Set("seed", Number(seed.value));
      }
      preObs, preInfo := reply.obs, reply.info;
      return Ok(d);
    }

    /** `collector.reset(reset_buffer, reset_stats, seed, gym_reset_kwargs)`. */
    method Reset(resetBuffer: bool, resetStats: bool, seed: Option<int>, kwargs: Option<Dict<Value>>, reply: ResetReply)
      returns (err: Option<Error>)
      requires kwargs.Some? ==> kwargs.value.Valid()
      modifies this
      ensures err.Some? <==> ResetKwargs(seed, kwargs).Err?
      ensures err.Some? ==> err == Some(ValueError) && isClosed == old(isClosed)
      ensures err.Some? ==> preObs == old(preObs) && preInfo == old(preInfo)
      ensures err.None? ==> preObs == reply.obs && preInfo == reply.info && !isClosed
      ensures err.None? && resetStats ==> collectStep == 0 && collectEpisode == 0 && collectTime == 0.0
      ensures err.Some? || !resetStats ==>
                collectStep == old(collectStep) && collectEpisode == old(collectEpisode)
                && collectTime == old(collectTime)
      ensures envNum == old(envNum) && buffer == old(buffer) && explorationNoise == old(explorationNoise)
    {
      var sent := ResetEnv(seed, kwargs, reply);
      if sent.Err? {
        return Some(sent.error);
      }
      if resetBuffer {
        ResetBuffer();
      }
      if resetStats {
        ResetStat();
      }
      isClosed := false;
      return None;
    }

    /** `collector._add_to_buffer(...)`: creates the seven lists on first
        use, then appends the row's entry to each. */
    method AddToBuffer(r: Row)
      requires Valid()
      modifies this
      ensures Valid()
      ensures buffer == Some(AddRow(LogOf(old(buffer)), r))
      ensures OnlyBufferChanged()
    {
      var log := LogOf(buffer);
      ghost var n := |log.obs|;
      assert Parallel(log, n);
      ghost var expected := AddRow(log, r);
      log := log.(obs := log.obs + [r.obs]);
      log := log.(actions := log.actions + [r.actions]);
      log := log.(rewards := log.rewards + [r.rewards]);
      log := log.(nextObs := log.nextObs + [r.nextObs]);
      log := log.(terminated := log.terminated + [r.terminated]);
      log := log.(truncated := log.truncated + [r.truncated]);
      log := log.(infos := log.infos + [r.infos]);
      assert log == expected;
      AddRowAppendsOne(LogOf(buffer), r);
      assert Parallel(log, n + 1);
      buffer := Some(log);
    }

    /** `collector.collect(n_step, n_episode, reset_before_collect=...,
        gym_reset_kwargs=...)`: the environment answers a reset with
        `reply` and the steps with `script`; the clock reads `startTime`
        before and `endTime` after the loop. */
    method Collect(nStep: Option<int>, nEpisode: Option<int>, resetBeforeCollect: bool,
                   kwargs: Option<Dict<Value>>, reply: ResetReply,
                   script: seq<StepReply>, startTime: real, endTime: real)
      returns (err: Option<Error>)
      requires Valid()
      requires kwargs.Some? ==> kwargs.value.Valid()
      requires WellFormed(script, envNum)
      requires CheckArgs(nStep, nEpisode).None? ==> StepsTaken(nStep, nEpisode, script).Some?
      modifies this
      ensures Valid()
      ensures err == CheckArgs(nStep, nEpisode)
      ensures err.Some? ==> buffer == old(buffer) && collectStep == old(collectStep)
                            && collectEpisode == old(collectEpisode) && collectTime == old(collectTime)
                            && preObs == old(preObs) && preInfo == old(preInfo) && isClosed == old(isClosed)
      ensures err.None? ==>
                var k := StepsTaken(nStep, nEpisode, script).value;
                var obs0 := if resetBeforeCollect then reply.obs else old(preObs);
                && buffer == Some(AddRows(LogOf(old(buffer)), Transcript(obs0, script[..k])))
                && collectStep == (if resetBeforeCollect then 0 else old(collectStep)) + k
                && collectEpisode == (if resetBeforeCollect then 0 else old(collectEpisode)) + Episodes(script, k)
                && collectTime == (if resetBeforeCollect then 0.0 else old(collectTime)) + Elapsed(startTime, endTime)
                && preObs == obs0
                && preInfo == (if resetBeforeCollect then reply.info else old(preInfo))
                && isClosed == (if resetBeforeCollect then false else old(isClosed))
      ensures envNum == old(envNum) && explorationNoise == old(explorationNoise)
    {
      err := CheckArgs(nStep, nEpisode);
      if err.Some? {
        return;
      }
      if resetBeforeCollect {
        var e := Reset(false, true, None, kwargs, reply);
      }
      var stepCount, numCollectedEpisodes := Steps(nStep, nEpisode, script);
      collectStep := collectStep + stepCount;
      collectEpisode := collectEpisode + numCollectedEpisodes;
      collectTime := collectTime + Elapsed(startTime, endTime);
    }

    /** The loop of `collect`: from the pending observation, record one
        row per step until the step or episode target is met. */
    method Steps(nStep: Option<int>, nEpisode: Option<int>, script: seq<StepReply>)
      returns (stepCount: nat, numCollectedEpisodes: nat)
      requires Valid()
      requires FlagsMatch(script)
      requires StepsTaken(nStep, nEpisode, script).Some?
      modifies this
      ensures Valid()
      ensures var k := StepsTaken(nStep, nEpisode, script).value;
              && stepCount == k && numCollectedEpisodes == Episodes(script, k)
              && buffer == Some(AddRows(LogOf(old(buffer)), Transcript(old(preObs), script[..k])))
      ensures OnlyBufferChanged()
    {
      ghost var k := StepsTaken(nStep, nEpisode, script).value;
      ghost var target := AddRows(LogOf(buffer), Transcript(preObs, script[..k]));
      var obs := preObs;
      stepCount := 0;
      numCollectedEpisodes := 0;
      while true
        invariant Valid()
        invariant 0 <= stepCount < k && FirstStopFrom(nStep, nEpisode, script, stepCount + 1) == Some(k)
        invariant numCollectedEpisodes == Episodes(script, stepCount)
        invariant AddRows(LogOf(buffer), Transcript(obs, script[stepCount..k])) == target
        invariant OnlyBufferChanged()
        decreases k - stepCount
      {
        var s := script[stepCount];
        StepAdvances(nStep, nEpisode, script, stepCount, k);
        RecordStep(obs, script, stepCount, k, target);
        obs := s.nextObs;
        stepCount := stepCount + 1;
        numCollectedEpisodes := numCollectedEpisodes + Dones(s.terminated, s.truncated);
        if nStep.Some? && stepCount >= nStep.value {
          break;
        }
        if nEpisode.Some? && numCollectedEpisodes >= nEpisode.value {
          break;
        }
      }
      assert script[stepCount..k] == [];
    }

    /** The recording half of one loop iteration: `_add_to_buffer` gets the
        row of step `i` taken from `obs`, leaving the rows of the later steps
        up to `k` still to be recorded. */
    method RecordStep(obs: Value, script: seq<StepReply>, i: nat, ghost k: nat, ghost target: Log)
      requires Valid() && i < k <= |script|
      requires AddRows(LogOf(buffer), Transcript(obs, script[i..k])) == target
      modifies this
      ensures Valid() && OnlyBufferChanged() && buffer.Some?
      ensures AddRows(LogOf(buffer), Transcript(script[i].nextObs, script[i + 1..k])) == target
    {
      RecordOneStep(LogOf(buffer), obs, script, i, k);
      AddToBuffer(RowOf(obs, script[i]));
    }
  }
}

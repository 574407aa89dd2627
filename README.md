# Milo data core in Dafny

This project models the data-management core of Milo, a small reinforcement
learning scaffold written in Python, and proves properties of that model:

- **Transitions** (`transition.dfy`): the nine-field `Transition` record, its
  defaults, the object view a `Batch` reads, and the fields `repr` prints.
- **Batches** (`batch.dfy`): `Batch`, modelled by its instance `__dict__` (an
  insertion-ordered dictionary). This covers:
  - the key selection of `_setup_keys`;
  - the subset check and column stacking of `_setup`;
  - the key-by-key conversions `to_numpy` and `to_torch`, as methods proved
    against pass functions;
  - `len`, `repr` and `set_key`.

  Numeric contents are abstract. A value is known by its kind: number, flag,
  string, list, numpy array with a dtype family, tensor with a device, dict or
  object.
- **Replay buffer** (`buffer.dfy`): a class over a sequence of transitions. It
  covers capacity eviction (first in, first out), `reset` and `seed`, and the
  batches `to_batch` and `sample` build. The random draw is an arbitrary
  choice of positions that `Generator.choice` would accept.
- **Collector** (`collector.dfy`): a class over the counters, the pending
  observation, the closed flag and the seven parallel lists of its recording
  dict. The environment is an oracle:
  - `reset` answers with a given reply;
  - the steps answer with the entries of a given script;
  - the wall clock is passed in as two readings.
- **Timer** (`timer.dfy`): the start/stop state machine. The clock reading is
  a `real` parameter `now`.
- **Logger** (`logger.dfy`): the key flattening of `WandbLogger.log`:
  - `step` is popped;
  - each dict-valued argument `k` is spread one level deep into the keys
    `k/k2`;
  - what would be passed to `wandb.log` is returned.

`values.dfy` holds the shared vocabulary:
- `Option` and `Result`;
- the exceptions the code raises;
- the ordered dictionary `Dict`, with `d[k] = v` as `Set` and successive
  assignments as `SetAll`;
- the abstract `Value`.

## Model

| member | source | states |
|---|---|---|
| Transitions.AsObject | milo/data/transition.py:2-11 | the `__dict__` of a transition holds the nine attributes in assignment order, each reading back its own field |
| Transitions.New | milo/data/transition.py:2-11 | the constructor stores each argument under its own attribute; `terminated`, `truncated`, `info` and `pixels` default to `None` |
| Transitions.ConstructionStoresArguments | milo/data/transition.py:2-11 | the i-th attribute of a transition built from five arguments reads back the i-th argument; `terminated`, `truncated`, `info` and `pixels` read back `None` |
| Transitions.ReprFields | milo/data/transition.py:13-19 | `repr` prints seven name/value pairs: the first seven attributes in assignment order |
| Transitions.ReprShowsAttributes | milo/data/transition.py:13-19 | every printed value is the stored attribute of that name, and neither `info` nor `pixels` is printed |
| Batches.SetupKeys | milo/data/batch.py:29-37 | a non-empty `only` is the selection as given; otherwise the selection is the declared keys minus `exclude`, without duplicates, and the declared keys in order when nothing is excluded |
| Batches.Initial | milo/data/batch.py:25-26 | `_keys` and `_batch` are the first two entries of the instance dict |
| Batches.ItemError | milo/data/batch.py:49-52 | a record passes the subset check exactly when it is an object holding every selected key |
| Batches.SubsetErrorFrom | milo/data/batch.py:49-52 | no error exactly when every record from position i on has every selected key; otherwise the error is that of the first record that fails |
| Batches.SubsetError | milo/data/batch.py:49-52 | the check passes exactly when every record after the first has every selected key (the first is never checked); otherwise it reports the first failure |
| Batches.CheckSubset | milo/data/batch.py:49-52 | the checking loop returns exactly the error `SubsetError` specifies |
| Batches.Column | milo/data/batch.py:56 | a column lists the attribute of every record, in record order |
| Batches.Columns | milo/data/batch.py:56 | one `(name, np.stack(column))` pair per attribute name of the first record, in its order |
| Batches.SetupOutcome | milo/data/batch.py:45-63 | an empty batch fails with `IndexError`; setup succeeds exactly when the first record is an object, every record has the first record's attributes, and every later record has the selected keys |
| Batches.Construct | milo/data/batch.py:20-27 | giving both `exclude` and `only` fails the assertion; otherwise construction is `_setup` on the initial dict with the selected keys |
| Batches.ConstructIsSetAll | milo/data/batch.py:45-63 | a successful construction assigns one stacked column per attribute of the first record on top of the initial dict |
| Batches.BatchOrder | milo/data/batch.py:56-61 | after `_keys` and `_batch`, the instance dict lists the first record's attributes in its order |
| Batches.BatchBookkeeping | milo/data/batch.py:25-26 | after construction, `_keys` holds the selected keys and `_batch` the given records |
| Batches.BatchColumns | milo/data/batch.py:56-61 | every attribute of the first record is a numpy column with one row per record, whose row i is that attribute of record i |
| Batches.LenOf | milo/data/batch.py:107-108 | `len(batch)` is the length of `_batch` and fails with `AttributeError` when there is none |
| Batches.ConstructedLength | milo/data/batch.py:107-108 | a constructed batch has as many rows as records were given, also when the first record has its own `_keys` or `_batch` attribute |
| Batches.SetupLength | milo/data/batch.py:56-61 | after the `setattr` loop, `len` is the number of records: `_batch` keeps the record list, or is overwritten by a stacked column of one row per record |
| Batches.ReprOf | milo/data/batch.py:110-114 | `repr` lists one entry per selected key, in `_keys` order, and each such key is present |
| Batches.ShapesOf | milo/data/batch.py:112 | each listed key shows its leading dimension, or `None` for a `None` value; the call fails only when a key is missing or its value has no shape |
| Batches.VisitedKeys | milo/data/batch.py:68 | the conversions visit a non-empty `only`, else every key of the instance dict in order |
| Batches.AsNumpy | milo/data/batch.py:74-77 | conversion gives a numpy array with the value's number of rows |
| Batches.NumpyPass | milo/data/batch.py:70-77 | `to_numpy` never adds or reorders keys |
| Batches.NumpyPassKeeps | milo/data/batch.py:70-72 | arrays, excluded keys and keys not visited are left untouched |
| Batches.NumpyPassConverts | milo/data/batch.py:70-77 | on success every visited key was present, and every visited, non-excluded non-array now holds its conversion |
| Batches.NumpyPassFails | milo/data/batch.py:71 | `to_numpy` fails only with `KeyError` on a visited key that is missing |
| Batches.NumpyPassKeepsRows | milo/data/batch.py:65-77 | every sized value keeps its number of rows, so `len(batch)` is unchanged |
| Batches.TorchExclude | milo/data/batch.py:81 | `to_torch` excludes `info` unless given a non-empty `exclude` |
| Batches.AsTensor | milo/data/batch.py:94-105 | a converted value is a tensor on the requested device; an array converts exactly when it is numeric, any other value exactly when `torch.tensor` accepts it |
| Batches.TorchVisit | milo/data/batch.py:91-105 | tensors and object arrays are skipped; any other value is replaced by its tensor, or its conversion error is reported |
| Batches.TorchPass | milo/data/batch.py:86-105 | `to_torch` never adds or reorders keys |
| Batches.TorchPassKeeps | milo/data/batch.py:86-98 | excluded keys, keys starting with `_`, tensors, object arrays and keys not visited are left untouched |
| Batches.TorchPassConverts | milo/data/batch.py:86-105 | on success every visited key not skipped by name was present and convertible, and now holds its tensor unless skipped by value |
| Batches.TorchPassFails | milo/data/batch.py:86-105 | `to_torch` fails only on a visited key not skipped by name, with `KeyError`, `TypeError` or `ValueError` |
| Batches.TorchPassKeepsLength | milo/data/batch.py:88-89 | `to_torch` never touches `_batch`, so `len(batch)` is unchanged |
| Batches.Batch.Init | milo/data/batch.py:25-26 | a new batch object starts with `_keys` and `_batch` assigned |
| Batches.Batch.Create | milo/data/batch.py:20-27 | the constructor fails exactly as `Construct` specifies, and otherwise yields a fresh batch whose dict is the constructed one |
| Batches.Batch.Setup | milo/data/batch.py:45-63 | the `setattr` loop leaves the dict `SetupOutcome` specifies, or reports its error |
| Batches.Batch.SetKey | milo/data/batch.py:42-43 | `set_key` assigns the key (`None` by default) and changes nothing else |
| Batches.Batch.ToNumpy | milo/data/batch.py:65-77 | both `exclude` and `only` fail the assertion with the dict unchanged; otherwise the dict and the error are those of the numpy pass |
| Batches.Batch.ToTorch | milo/data/batch.py:79-105 | both `exclude` and `only` fail the assertion with the dict unchanged; otherwise the dict and the error are those of the torch pass |
| Batches.Batch.Len | milo/data/batch.py:107-108 | `len(batch)` on the object is `LenOf` its instance dict |
| Batches.Batch.Repr | milo/data/batch.py:110-114 | `repr` of the object is `ReprOf` its instance dict |
| Buffers.Pushed | milo/data/buffer/base.py:24-27 | a push appends the item; at or over capacity it first drops the oldest one; it fails with `IndexError` exactly when it must pop from an empty list |
| Buffers.PushAllUnbounded | milo/data/buffer/base.py:24-27 | without a capacity, every pushed transition is kept in push order |
| Buffers.PushKeepsLast | milo/data/buffer/base.py:24-27 | one push into a buffer within a positive capacity c keeps the last c items |
| Buffers.PushAllKeepsLast | milo/data/buffer/base.py:24-27 | FIFO eviction: after any pushes, a buffer of capacity c holds exactly the last c of its old contents followed by the pushes |
| Buffers.PushAllNonPositive | milo/data/buffer/base.py:25-26 | with a capacity of 0 or less, pushing into the empty buffer fails with `IndexError` |
| Buffers.DrawExists | milo/data/buffer/base.py:32 | whenever `choice` accepts its arguments, an acceptable draw of positions exists |
| Buffers.Drawn | milo/data/buffer/base.py:32 | the sampled transitions are those at the drawn positions, in draw order |
| Buffers.TransitionsFit | milo/data/buffer/base.py:33-36 | transitions meet every demand `Batch` makes of its records when `only` names transition fields |
| Buffers.TransitionsBatch | milo/data/buffer/base.py:35-36 | a batch over stored transitions succeeds on a non-empty buffer with one row per transition, and fails with `IndexError` on an empty one |
| Buffers.TransitionsColumns | milo/data/buffer/base.py:35-36 | each transition field becomes a column listing that field of every transition in storage order |
| Buffers.ReplayBuffer.constructor | milo/data/buffer/base.py:11-15 | a new buffer is empty and records capacity and seed, but keeps the shared default generator |
| Buffers.ReplayBuffer.Seed | milo/data/buffer/base.py:17-19 | `seed` records the seed and switches to a generator built from it, with the contents unchanged |
| Buffers.ReplayBuffer.Reset | milo/data/buffer/base.py:21-22 | `reset` empties the buffer and keeps capacity, seed and generator |
| Buffers.ReplayBuffer.Push | milo/data/buffer/base.py:24-27 | the contents become `Pushed` of the old ones, or stay as they were on `IndexError`; the buffer never exceeds its capacity |
| Buffers.ReplayBuffer.Sample | milo/data/buffer/base.py:29-33 | refused draws fail with `ValueError`; otherwise the positions form an acceptable draw, and the result is the batch built from the transitions at them |
| Buffers.ReplayBuffer.ToBatch | milo/data/buffer/base.py:35-36 | the result is the batch built from every stored transition in storage order |
| Buffers.ReplayBuffer.Len | milo/data/buffer/base.py:38-39 | `len(buffer)` is the number of stored transitions |
| Collectors.NumEnvs | milo/data/collector.py:21-27 | a single environment counts as one; a vector environment as its own count |
| Collectors.Dones | milo/data/collector.py:162-163 | the episodes ended in one step never outnumber the environments |
| Collectors.Episodes | milo/data/collector.py:148-163 | the episode count is 0 before any step and, after a step, includes the episodes that step ended |
| Collectors.DonesCounts | milo/data/collector.py:162-163 | no episode ends exactly when no flag is raised; all end exactly when each environment has a flag raised |
| Collectors.EpisodesMonotone | milo/data/collector.py:163 | the running episode count never decreases |
| Collectors.CheckArgs | milo/data/collector.py:125-132 | exactly one of `n_step` and `n_episode` must be given (`ValueError`), and it must be positive (`AssertionError`) |
| Collectors.FirstStopFrom | milo/data/collector.py:165-168 | a found stopping step lies in the script and meets the break condition |
| Collectors.FirstStopFromIsFirst | milo/data/collector.py:165-168 | no earlier step meets the break condition, and none at all when nothing is found |
| Collectors.StepsTaken | milo/data/collector.py:149-168 | the number of steps taken lies in the script and meets the break condition |
| Collectors.StepsTakenIsFirst | milo/data/collector.py:149-168 | the loop stops at the first step meeting its condition, and finds none exactly when no step of the script meets it |
| Collectors.NStepExact | milo/data/collector.py:165-166 | with `n_step = n` the loop runs exactly n steps |
| Collectors.NEpisodeFirstReach | milo/data/collector.py:167-168 | with `n_episode = n` the loop stops at the first step where the ended-episode count reaches n, and runs past the script exactly when the script never reaches n |
| Collectors.EmptyLog | milo/data/collector.py:93-102 | the recording dict starts as seven empty parallel lists |
| Collectors.AddRowAppendsOne | milo/data/collector.py:103-109 | each of the seven lists gets exactly its entry of the row appended |
| Collectors.AddRow | milo/data/collector.py:103-109 | appending a row to parallel lists leaves them parallel, one entry longer |
| Collectors.AddRowsAppends | milo/data/collector.py:103-109 | recording rows extends each list by its entries of the rows, in order |
| Collectors.AddRowsParallel | milo/data/collector.py:92-109 | the seven lists stay parallel, growing by one per recorded row |
| Collectors.TranscriptChains | milo/data/collector.py:146-159 | the first recorded step starts from the pending observation, every later one from the previous next observation, and each holds its own step's answers |
| Collectors.Elapsed | milo/data/collector.py:173 | the added collection time is the elapsed time, but never below 1e-9 |
| Collectors.ResetKwargs | milo/data/collector.py:82-88 | a seed given both ways fails with `ValueError`; otherwise the given arguments are passed on unchanged, with `seed` added when given |
| Collectors.Collector.constructor | milo/data/collector.py:13-39 | a new collector counts the environments, has no recording dict, zero counters, no pending observation and is open |
| Collectors.Collector.Close | milo/data/collector.py:41-46 | `close` clears the pending observation and info and marks the collector closed, changing nothing else |
| Collectors.Collector.IsClosed | milo/data/collector.py:48-51 | `is_closed` reports the closed flag |
| Collectors.Collector.ResetStat | milo/data/collector.py:68-70 | the three counters become zero, nothing else changes |
| Collectors.Collector.ResetBuffer | milo/data/collector.py:72-74 | `reset_buffer` leaves the recording dict as it is |
| Collectors.Collector.ResetEnv | milo/data/collector.py:76-90 | the environment gets `ResetKwargs`; on success its reply becomes the pending observation and info; on error nothing changes |
| Collectors.Collector.Reset | milo/data/collector.py:53-66 | `reset` fails as `reset_env` does; otherwise it takes the reply, zeroes the counters when asked, reopens the collector and never clears the recording dict |
| Collectors.Collector.AddToBuffer | milo/data/collector.py:92-109 | the recording dict (created on first use) gets the row appended and stays parallel; nothing else changes |
| Collectors.Collector.Collect | milo/data/collector.py:115-174 | argument errors are reported with nothing changed; otherwise the script's steps up to the break are recorded, chained from the pending observation (or the reset reply, which also becomes the pending info), and the counters grow by the steps, the episodes and the elapsed time |
| Collectors.Collector.Steps | milo/data/collector.py:145-168 | the loop takes exactly `StepsTaken` steps, counts the episodes they end and records their transcript |
| Collectors.Collector.RecordStep | milo/data/collector.py:158-159 | recording one step leaves exactly the later steps' rows to record |
| Timers.Started | milo/utils/timer.py:10-15 | `start` fails with `RuntimeError` exactly when running, and otherwise takes the start time and runs |
| Timers.Stopped | milo/utils/timer.py:17-22 | `stop` fails with `RuntimeError` exactly when not running, and otherwise takes the stop time and halts |
| Timers.ReachableKept | milo/utils/timer.py:5-22 | a new timer is reachable and `start` and `stop` keep it so: a running timer was started, a halted started one was stopped |
| Timers.FinalTimeAgrees | milo/utils/timer.py:33-36 | `final_time` is given exactly when started, halted and stopped, is then stop minus start, and agrees with `running_time` |
| Timers.RunningTimeCases | milo/utils/timer.py:24-31 | `running_time` fails with `ValueError` exactly when never started or halted unstopped, and while running is the time since the start |
| Timers.ReachableRunningTime | milo/utils/timer.py:24-36 | on a reachable timer, `running_time` fails exactly when never started, and `final_time` is missing exactly when never started or running |
| Timers.StartThenStop | milo/utils/timer.py:10-36 | starting at t0 and stopping at t1 gives `final_time` and `running_time` both t1 - t0, and a second `stop` is refused |
| Timers.Timer.constructor | milo/utils/timer.py:5-8 | a new timer is neither started, stopped nor running |
| Timers.Timer.Start | milo/utils/timer.py:10-15 | the fields become `Started` of the old ones, or stay on `RuntimeError` |
| Timers.Timer.Stop | milo/utils/timer.py:17-22 | the fields become `Stopped` of the old ones, or stay on `RuntimeError` |
| Timers.Timer.RunningTime | milo/utils/timer.py:24-31 | `running_time` is `RunningTimeOf` the fields at the given clock reading |
| Timers.Timer.FinalTime | milo/utils/timer.py:33-36 | `final_time` is `FinalTimeOf` the fields |
| Timers.Timer.IsRunning | milo/utils/timer.py:38-39 | `is_running` returns the running flag |
| Logging.PopStep | milo/utils/logger/wandb.py:44 | `step` is taken out (`None` when absent) and the other arguments are kept unchanged |
| Logging.Logged | milo/utils/logger/wandb.py:43-53 | the step handed to `wandb.log` is the `step` argument, or `None` |
| Logging.Log | milo/utils/logger/wandb.py:43-53 | the nested loop hands on exactly the step and data `Logged` specifies |
| Logging.LogDict | milo/utils/logger/wandb.py:47-49 | the inner loop assigns `k/k2` for each entry of the dict argument, in order |
| Logging.LogOne | milo/utils/logger/wandb.py:46-51 | one argument keeps the existing keys in their order; a plain argument is stored under its own name; each entry `k2` of a dict argument `k` is stored under `k/k2` with its value |
| Logging.Flatten | milo/utils/logger/wandb.py:46-51 | flattening the arguments in turn keeps every existing key in its position |
| Logging.LogOneEffect | milo/utils/logger/wandb.py:46-51 | one argument assigns exactly the keys it writes, each to its written value, and leaves every other key alone |
| Logging.FlattenUntouched | milo/utils/logger/wandb.py:46-51 | arguments none of which writes a key leave it as it was |
| Logging.FlattenLastWrite | milo/utils/logger/wandb.py:46-51 | when several arguments write a key, the last one decides its value |
| Logging.FlattenDomain | milo/utils/logger/wandb.py:46-51 | the data holds exactly the keys it held before and those some argument writes |
| Logging.OneWriter | milo/utils/logger/wandb.py:47-51 | with slash-free argument names, two different arguments never write the same data key |
| Logging.LogWrites | milo/utils/logger/wandb.py:46-51 | with slash-free argument names, every key an argument writes is logged with that argument's value for it |
| Logging.LogKeepsPlain | milo/utils/logger/wandb.py:50-51 | a non-dict argument other than `step` is logged under its own name with its own value |
| Logging.LogFlattensNested | milo/utils/logger/wandb.py:47-49 | entry `k2` of a dict argument `k` is logged as `k/k2` with the entry's value unchanged, so a dict inside it stays a dict (one level only) |
| Logging.LogDomain | milo/utils/logger/wandb.py:44-51 | the data holds exactly the keys written by the arguments other than `step` |
| Logging.LogDropsStep | milo/utils/logger/wandb.py:44-53 | `step` never appears among the data keys |

## Left out

- Batches.SetupKeys: with a non-empty `exclude` the selection comes from a Python `set`, so its order is unspecified. The contract promises only the members, without duplicates; the model happens to use declared order.
- Batches.AsTensor: the model assumes torch is installed (line 84 is not modelled). `torch.tensor` refusing a value is reported as `ValueError`, and `torch.from_numpy` refusing a string array surfaces as `TypeError`; the finer failure modes of either are not modelled.
- Numeric work: `np.stack` shape mismatches, real dtypes, 0-d arrays and `.cpu()` copies are not modelled. Values are abstract kinds, and a dtype is one of numeric, unicode or object.
- `Batch.get_keys` and the unused `set_attr=False` path of `_setup`: the first is a plain getter, and the second is never called.
- Batches.BatchOrder, Batches.BatchBookkeeping: they assume the first record has no attribute named `_keys` or `_batch`. Such an attribute would overwrite the bookkeeping value of that name (`ConstructedLength` covers that case for `len`).
- Batches.Stackable, Values.Attr: `getattr` also finds class attributes, but the model looks only in the instance `__dict__`. A later record that inherits a selected key from its class stacks in the source and fails with `AttributeError` in the model. `Transition` has no class attributes, so batches of transitions are unaffected.
- The printed text of `repr` for `Batch`, `Transition` and `ReplayBuffer`: only the pairs printed are modelled.
- Buffers.ReplayBuffer.Sample: the random distribution of `Generator.choice` and reproducibility under a seed are not modelled; the draw is any choice of positions that `choice` accepts.
- Collectors.Collector.Collect: it requires the script to reach the break condition. A collection that never stops (the `while True` loop with an environment that never meets the target) is not modelled.
- `warnings.warn` (single environment, fewer episodes than environments), the `print` calls in `collect` and `pixels` (never stored) are not modelled: they produce output only.
- Rendering in `collect` is not modelled, including its possible failure: `print("pixels", pixels.shape)` raises `AttributeError` when `env.render()` returns `None` (collector.py:153-156).
- `env.step`, `env.reset`, `env.close` and `action_space.sample()` are not modelled. They are foreign calls, replaced by the oracle replies in the script.
- Collectors.Collector.ResetEnv: when the given keyword dict is non-empty, `seed` is written into it in place, so the caller's dict changes too; an empty one is replaced by a fresh `{}` (collector.py:82) and the caller's stays empty. The model passes a new dict and does not capture that aliasing.
- Buffers.ReplayBuffer.ToBatch: `to_batch` hands the buffer's own list to `Batch`, which keeps it as `_batch` (batch.py:26). A later `push` appends to that list, or shifts it with `pop(0)` first, so the batch's `_batch` changes with it; `reset` binds a new list and the batch keeps the old one; `sample` copies its draw with `.tolist()` and shares nothing. The model stores values, so this sharing is not captured.
- Batches.Batch.Create: `_keys = only` keeps the caller's `only` list itself (batch.py:25-31), so later changes to that list show through `_keys`. The model stores values and does not capture this sharing.
- The recording dict of the collector is a record of seven lists. Its keys are `LogKeys`, and no other key is ever added.
- Wall-clock time: `time.time()` in the collector and the timer is passed in as parameters.
- Timers.Timer.Start: `start` and `stop` return `self` for chaining; the model returns the error instead.
- `WandbLogger.__init__`, `_init`, `download` and `close`, and the `wandb.init`, `wandb.log` and `wandb.finish` calls are not modelled: they are I/O to the wandb service. `log` returns the step and data it would hand on.
- Logging.LogWrites, Logging.LogFlattensNested: they assume argument names without `/`, as every keyword given as a Python identifier is. With a name such as `a/b`, a plain argument and a dict argument can write the same key, and then the later one wins (`FlattenLastWrite`).
- Logging.LogKeepsPlain: assumes the argument's own name has no `/`.
- Dictionary keys in the logger and the batch are strings; non-string keys are not modelled.

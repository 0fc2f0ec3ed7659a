# Parameter client of a distributed embedding trainer

This project models the client side of the parameter store used to train
knowledge-graph embeddings across worker processes
(`kge/distributed/parameter_client.py`). Workers read and update a table of
fixed-width rows keyed by integer entity and relation ids. The same channel
carries control signals: a stop flag, two optimizer step counters and two
learning rates. These live in reserved "meta" rows at the top of the key
space.

Modules:

- `Layout` (`layout.dfy`): the five meta keys `num_keys - num_meta_keys + 0..4`.
  They are, in order, stop, entity step, relation step, entity lr and
  relation lr. The Lapse and shared-memory backends compute all five with
  this one function. The command-protocol backend computes only the stop
  key, and it uses the same function for it.
- `Table` (`table.dfy`): the shared table as an immutable `seq<seq<real>>`.
  `Pull` gathers rows in key order, `Push` adds element-wise and `Set`
  overwrites.
- `SharedBackend` (`shared_backend.dfy`): the shared-memory client. Its stop,
  step-counter and learning-rate signals are pushes, sets and pulls on meta
  rows. Group names go through run-time attribute lookup, so an unknown group
  is an `AttributeError`.
- `TorchProtocol` (`torch_protocol.dfy`): the command protocol as a pure
  encoder of send and receive events. `Decode` is an independent reference
  reader that splits the client's send stream back into requests.
- `TorchBackend` (`torch_backend.dfy`): the command-protocol client. The
  values the server sends back are parameters of each call.
- `Facade` (`facade.dfy`): the factory `create`, plus method resolution over
  the base class, the Lapse client, the command client and the shared client.
  Resolution covers the base-class defaults, the deliberate `localize` gap on
  Lapse and which operations each backend inherits.
- `Wrappers` (`wrappers.dfy`): `Option`, `Result` and the Python exceptions the
  client raises.

In these places the code behaves differently from the facade's intended
contract. The model follows the code:

- `is_stopped` on the command and shared-memory clients is true when ANY
  component of the stop row equals 1, not only the first. `stop` adds 1
  rather than setting 1, so a second `stop` leaves the row at 2 and the
  client no longer reports stopped (`SharedBackend.StopCountsOnce`).
- An unknown backend name raises `ValueError`.
- The command and shared-memory clients do not define `intent` or
  `current_clock`. They inherit the base class's `NotImplementedError` rather
  than a no-op.
- Out-of-range keys are not checked by the code. Duplicate keys in one push
  do not accumulate under tensor advanced indexing. The model therefore
  requires distinct in-range keys for push and set.

## Model

| member | source | states |
|---|---|---|
| Layout.Compute | kge/distributed/parameter_client.py:303-311 | meta key i is `num_keys - num_meta_keys + i`; the five are pairwise distinct and never embedding keys; all lie in `[0, num_keys)` iff `5 <= num_meta_keys <= num_keys` |
| Layout.LastFiveKeys | kge/distributed/parameter_client.py:303-311 | with five meta keys the signals are exactly the last five keys |
| Layout.GroupKeysDistinct | kge/distributed/parameter_client.py:303-311 | a group's step and lr keys differ from each other, from the other group's keys and from the stop key |
| Layout.Layout107 | kge/distributed/parameter_client.py:303-311 | 107 keys with 5 meta keys give stop..relation lr = 102..106 |
| Table.Pull | kge/distributed/parameter_client.py:326-327 | output row i is the stored row of `keys[i]`, in key order, duplicates allowed |
| Table.Push | kge/distributed/parameter_client.py:330-331 | the row of `keys[i]` becomes the stored row plus `payload[i]` element-wise; every other row is unchanged |
| Table.Set | kge/distributed/parameter_client.py:335-336 | the row of `keys[i]` becomes `rows[i]`; every other row is unchanged |
| Table.WritesKeepShape | kge/distributed/parameter_client.py:330-336 | push and set keep every row at the table's width |
| Table.PullAfterSet | kge/distributed/parameter_client.py:326-336 | pulling the keys just set returns the rows that were set |
| Table.PullUnaffected | kge/distributed/parameter_client.py:326-336 | a pull of keys disjoint from a push or set sees the rows from before it |
| Table.PushZeros | kge/distributed/parameter_client.py:330-331 | pushing an all-zero payload leaves the table unchanged |
| Table.PushPush | kge/distributed/parameter_client.py:330-331 | for distinct keys, push a then push b equals one push of a + b |
| SharedBackend.ParseGroup | kge/distributed/parameter_client.py:359-378 | only "entity" and "relation" name a group; any other name is an AttributeError |
| SharedBackend.Pull | kge/distributed/parameter_client.py:326-327 | the client's pull returns the stored rows of the keys in order |
| SharedBackend.PullInto | kge/distributed/parameter_client.py:326-327 | a call without a buffer is a TypeError; otherwise the buffer ends up holding the stored rows of the keys in order |
| SharedBackend.Push | kge/distributed/parameter_client.py:330-331 | each listed row gains the payload component-wise, the rest of the table and the configuration are unchanged |
| SharedBackend.Set | kge/distributed/parameter_client.py:335-336 | each listed row becomes its payload row, the rest of the table is unchanged |
| SharedBackend.Stop | kge/distributed/parameter_client.py:347-350 | every component of the stop row goes up by 1; no other row changes |
| SharedBackend.IsStopped | kge/distributed/parameter_client.py:352-357 | true iff some component of the stop row equals exactly 1 |
| SharedBackend.StepGroup | kge/distributed/parameter_client.py:359-363 | every component of the group's step row goes up by 1; no other row changes |
| SharedBackend.StepOptim | kge/distributed/parameter_client.py:359-363 | fails with AttributeError exactly for names other than "entity"/"relation", otherwise steps that group |
| SharedBackend.StepCount | kge/distributed/parameter_client.py:365-370 | returns component 0 of the group's step row, IndexError iff rows are empty |
| SharedBackend.GetStepOptim | kge/distributed/parameter_client.py:365-370 | unknown names give AttributeError, known ones the group's step count |
| SharedBackend.SetGroupLr | kge/distributed/parameter_client.py:376-378 | the group's lr row becomes `lr` in every component; no other row changes |
| SharedBackend.SetLr | kge/distributed/parameter_client.py:376-378 | fails with AttributeError exactly for unknown names, otherwise fills that group's lr row |
| SharedBackend.GroupLr | kge/distributed/parameter_client.py:372-374 | returns component 0 of the group's lr row, IndexError iff rows are empty |
| SharedBackend.GetLr | kge/distributed/parameter_client.py:372-374 | unknown names give AttributeError, known ones the group's rate |
| SharedBackend.StopThenStopped | kge/distributed/parameter_client.py:347-357 | after stop the client reports stopped iff some stop component was 0 before |
| SharedBackend.StopCountsOnce | kge/distributed/parameter_client.py:347-357 | from an all-zero stop row: not stopped, stopped after one stop, not stopped after two |
| SharedBackend.StepThenCount | kge/distributed/parameter_client.py:359-370 | get_step_optim after step_optim returns the previous count plus 1 |
| SharedBackend.StepLeavesOtherSignals | kge/distributed/parameter_client.py:359-363 | stepping one group leaves the stop row, the other counter and both lr rows unchanged |
| SharedBackend.SetLrThenGetLr | kge/distributed/parameter_client.py:372-378 | get_lr after set_lr returns the rate that was set |
| SharedBackend.SetLrLeavesOtherRows | kge/distributed/parameter_client.py:376-378 | setting one group's rate leaves the other group's rate and every embedding row unchanged |
| SharedBackend.FreshStore | kge/distributed/parameter_client.py:303-357 | on a fresh 107-key store with five meta keys, pulling key 102 gives a zero row and the client is not stopped |
| SharedBackend.StepTimes | kge/distributed/parameter_client.py:359-363 | n step_optim calls change only the group's step row and keep the layout |
| SharedBackend.StepTimesCounts | kge/distributed/parameter_client.py:359-363 | n step_optim calls raise every component of the counter row by exactly n |
| TorchProtocol.RequestFrames | kge/distributed/parameter_client.py:216-293 | the first frame is a header; for pull, push and set its length is the key count and the keys follow, with the payload after them for push and set; the step commands carry the group index, the lr commands 0 followed by the rate for set_lr; which command the header carries is fixed by `HeaderNamesRequest` and `DecodeOneEncode` |
| TorchProtocol.HeaderNamesRequest | kge/distributed/parameter_client.py:216-293 | two requests whose headers carry the same command are of the same kind, and the lr commands also of the same group |
| TorchProtocol.Encode | kge/distributed/parameter_client.py:216-293 | a call sends its frames first and only data-returning calls end in one receive; the server sees exactly the request's frames |
| TorchProtocol.DecodeOneEncode | kge/distributed/parameter_client.py:216-234 | a well-framed request is read back whole from the front of any stream using only its header |
| TorchProtocol.DecodeEncode | kge/distributed/parameter_client.py:216-293 | one well-framed request is read back from its own send stream |
| TorchProtocol.DecodeEncodeAll | kge/distributed/parameter_client.py:216-293 | any session of well-framed requests is read back from the send stream exactly and in order |
| TorchProtocol.EncodeRecvs | kge/distributed/parameter_client.py:216-287 | a request receives once if it is pull, get_step_optim or get_lr, and never otherwise |
| TorchProtocol.OneReceivePerAnswer | kge/distributed/parameter_client.py:216-287 | a session receives exactly once per data-returning request |
| TorchBackend.Pull | kge/distributed/parameter_client.py:216-222 | sends `[PULL, len(keys)]` then the keys, and nothing else, then receives exactly one `len(keys) x dim` block as the last event and yields that block |
| TorchBackend.PullAsWritten | kge/distributed/parameter_client.py:216-222 | the received rows reach the caller iff the caller passed a buffer |
| TorchBackend.PullWithoutBufferLosesRows | kge/distributed/parameter_client.py:216-222 | a pull without a buffer receives a row but hands nothing back |
| TorchBackend.Push | kge/distributed/parameter_client.py:224-228 | sends `[PUSH, len(keys)]`, the keys and the payload, and receives nothing; with one payload row per key the server reads back exactly this push |
| TorchBackend.Set | kge/distributed/parameter_client.py:230-234 | sends `[SET, len(keys)]`, the keys and the payload, and receives nothing; with one payload row per key the server reads back exactly this set |
| TorchBackend.Stop | kge/distributed/parameter_client.py:245-248 | sends one push of a row of ones onto the stop key; every event is a send |
| TorchBackend.Shutdown | kge/distributed/parameter_client.py:250-252 | sends `[SHUTDOWN, 0]` and nothing else |
| TorchBackend.IsStopped | kge/distributed/parameter_client.py:254-259 | pulls the stop key; true iff some received component equals exactly 1 |
| TorchBackend.GroupIndex | kge/distributed/parameter_client.py:261-265 | index 0 iff the name is "entity", 1 for every other name |
| TorchBackend.StepOptim | kge/distributed/parameter_client.py:261-269 | sends only `[STEP_OPTIM, index]` and never fails |
| TorchBackend.GetStepOptim | kge/distributed/parameter_client.py:271-281 | sends `[GET_OPTIM_STEP, index]` and nothing else, then receives one header block as the last event and returns its element 1 |
| TorchBackend.LrGroup | kge/distributed/parameter_client.py:283-290 | the command exists iff the upper-cased name is ENTITY or RELATION, otherwise AttributeError |
| TorchBackend.GetLr | kge/distributed/parameter_client.py:283-287 | sends `[GET_<NAME>_LR, 0]` and nothing else, then receives one float as the last event and returns it; unknown names fail |
| TorchBackend.SetLr | kge/distributed/parameter_client.py:289-293 | sends `[SET_<NAME>_LR, 0]` then the rate, receives nothing; unknown names fail |
| TorchBackend.GroupNamesDiverge | kge/distributed/parameter_client.py:261-290 | "Entity" is accepted by the command client's lr lookup but rejected by the shared client; unknown step names map to index 1 |
| TorchBackend.StopKeyAgrees | kge/distributed/parameter_client.py:213 | the command client's stop key equals the shared client's for the same key count |
| TorchBackend.StopAgreesWithShared | kge/distributed/parameter_client.py:245-259 | answered from the same table, the command client's stop and is_stopped behave as the shared client's |
| Facade.Create | kge/distributed/parameter_client.py:74-96 | "lapse"/"torch"/"shared" select that backend; any other name is a ValueError carrying the name |
| Facade.CreateByName | kge/distributed/parameter_client.py:74-96 | every backend is created from its own name |
| Facade.Resolve | kge/distributed/parameter_client.py:17-379 | localize raises on the base and Lapse classes and is a no-op on the others; no backend lacks a facade operation |
| Facade.BaseDefaults | kge/distributed/parameter_client.py:39-64 | base is_stopped is False; advance_clock, wait, shutdown and stop do nothing; pull, push, set, current_clock, localize, intent and barrier raise NotImplementedError; barrier_eval, step_optim, get_step_optim, get_lr and set_lr are not defined, so calling them is an AttributeError |
| Facade.InheritedByTorchAndShared | kge/distributed/parameter_client.py:39-58 | command and shared clients inherit no-op clock/wait and raising current_clock/intent; only the command client defines shutdown |
| Facade.LapseMetaKeys | kge/distributed/parameter_client.py:110-118 | the Lapse meta keys are the last five engine keys in signal order and exactly the non-embedding keys |

## Findings

| source | as written | input that shows it | evidently intended | confidence | as-written member | corrected member |
|---|---|---|---|---|---|---|
| kge/distributed/parameter_client.py:216-222 | `pull` allocates a fresh buffer when none is passed, receives into it and returns `None` | `pull(keys)` with no `pull_tensor` | the received rows are handed back to the caller | medium, not executed | TorchBackend.PullAsWritten | TorchBackend.Pull |

## Left out

- Network transport: `dist.send`, `dist.recv` and `dist.barrier` are I/O. Only the ordered list of events a call emits is modelled, and received values are call parameters. `barrier` and `barrier_eval` are therefore not modelled on any backend.
- The Lapse engine: pull, push, set, advance_clock, current_clock, intent, wait and the key-size query all forward to an external library. The Lapse client is modelled only through its meta-key layout and its `localize` gap.
- Numeric command codes, `get_num_meta_keys`, `get_optimizer_dim` and `initialize_worker_groups` live in files that are not part of this model. Command codes are distinct constructors, and `dim` and `num_meta_keys` are inputs.
- The server side of the command protocol is not part of this model. `TorchProtocol.Decode` is a reference reader of the framing, not the server's code.
- float32 rounding: rows hold `real` values. The step count read back by the shared client is therefore exact.
- The `asynchronous` flags, which no modelled backend acts on.
- The scratch value tensors the clients reuse between calls. They hold no state that outlives a call.
- Concurrent mutation of the shared table by several workers: the code provides no locking.
- Duplicate keys within one push or set. Push and set require distinct keys, because tensor advanced indexing keeps only one contribution.
- Out-of-range keys. These include Python's wrap-around of negative keys and torch's index error for keys past the end. Pull, push, set and each control signal require the keys they touch to be in range.
- `TorchBackend.LrGroup`: only ASCII letters are upper-cased. Python's `str.upper` also maps some non-ASCII letters onto ASCII ones.
- SharedBackend.Pull: yields the rows that `pull` writes into the caller's buffer. The method itself returns `None` and has no default buffer; `SharedBackend.PullInto` models that call shape, including the TypeError when the buffer is missing.
- Table.Push and Table.Set: the payload must have one row per key, each as wide as the row it lands on. Tensor broadcasting would also accept, for example, a single payload row for several keys, and that case is not modelled.
- SharedBackend: every operation that writes or reads a meta row requires all table rows to have the configured width `dim`. The code never compares the table's width with `dim`. The two are taken from different places (the configuration and the caller's table), and a mismatch is not modelled.
- Configuration reading in the constructors, and the arguments `create` passes on to each backend's constructor. `Facade.Create` models only the choice of backend.

/**
 * The shared-memory backend: the client works directly on a table resident
 * in the process. Control signals are ordinary pushes, sets and pulls on the
 * reserved meta rows.
 */
module SharedBackend {
  import opened Wrappers
  import opened Table
  import opened Layout

  /**
   * A shared-memory client: the row width it was configured with, the size
   * of the meta region and the table it operates on (whose length is the key
   * count).
   */
  datatype Client = Client(dim: nat, numMetaKeys: int, parameters: Rows)
  {
    function Meta(): MetaKeys {
      Compute(|parameters|, numMetaKeys)
    }

    /** The table has rows of the configured width and `key` addresses one. */
    predicate Holds(key: int) {
      Shaped(parameters, dim) && 0 <= key < |parameters|
    }

    /** Rows other than `key` are the same in `c` and in this client. */
    predicate OnlyRowChanged(c: Client, key: int) {
      && dim == c.dim && numMetaKeys == c.numMetaKeys
      && |parameters| == |c.parameters|
      && Shaped(parameters, dim)
      && forall k :: 0 <= k < |parameters| && k != key ==> parameters[k] == c.parameters[k]
    }
  }

  /**
   * The group whose `_optim_<name>_step_key` / `_<name>_lr_key` attributes
   * exist: only the two literal names resolve, anything else is an
   * attribute error.
   */
  function ParseGroup(name: string): (r: Result<Group>)
    ensures r == Ok(Entity) <==> name == "entity"
    ensures r == Ok(Relation) <==> name == "relation"
    ensures r.Err? ==> r.error == AttributeError(name)
  {
    if name == "entity" then Ok(Entity)
    else if name == "relation" then Ok(Relation)
    else Err(AttributeError(name))
  }

  /** The key the named group's attribute resolves to, when it exists. */
  predicate GroupKeyHeld(c: Client, name: string, lr: bool) {
    ParseGroup(name).Ok? ==>
      c.Holds(if lr then c.Meta().LrKey(ParseGroup(name).value) else c.Meta().StepKey(ParseGroup(name).value))
  }

  /** Copies the stored rows of `keys` out, in key order. */
  function Pull(c: Client, keys: seq<int>): (rows: Rows)
    requires InRange(keys, |c.parameters|)
    ensures |rows| == |keys|
    ensures forall i :: 0 <= i < |keys| ==> rows[i] == c.parameters[keys[i]]
  {
    Table.Pull(c.parameters, keys)
  }

  /**
   * `pull(keys, pull_tensor)` as called: the buffer has no default, so a call
   * without one is a TypeError; otherwise the buffer ends up holding the
   * stored rows of `keys` in order, which is how the rows reach the caller
   * (the method itself returns nothing). A supplied buffer has the shape
   * `len(keys) x dim`.
   */
  function PullInto(c: Client, keys: seq<int>, buffer: Option<Rows>): (filled: Result<Rows>)
    requires InRange(keys, |c.parameters|)
    requires buffer.Some? ==> |buffer.value| == |keys|
    ensures filled.Err? <==> buffer.None?
    ensures filled.Err? ==> filled.error == TypeError
    ensures filled.Ok? ==> |filled.value| == |keys|
    ensures filled.Ok? ==> forall i :: 0 <= i < |keys| ==> filled.value[i] == c.parameters[keys[i]]
  {
    match buffer
    case None => Err(TypeError)
    case Some(_) => Ok(Pull(c, keys))
  }

  /** Adds `payload` in place onto the rows of `keys`. */
  function Push(c: Client, keys: seq<int>, payload: Rows): (r: Client)
    requires Shaped(c.parameters, c.dim) && Addressable(c.parameters, keys) && Fits(c.parameters, keys, payload)
    ensures r.dim == c.dim && r.numMetaKeys == c.numMetaKeys && Shaped(r.parameters, r.dim)
    ensures |r.parameters| == |c.parameters|
    ensures forall i, j :: 0 <= i < |keys| && 0 <= j < c.dim ==>
      r.parameters[keys[i]][j] == c.parameters[keys[i]][j] + payload[i][j]
    ensures forall k :: 0 <= k < |c.parameters| && k !in keys ==> r.parameters[k] == c.parameters[k]
  {
    WritesKeepShape(c.parameters, c.dim, keys, payload);
    c.(parameters := Table.Push(c.parameters, keys, payload))
  }

  /** Overwrites the rows of `keys` in place. */
  function Set(c: Client, keys: seq<int>, rows: Rows): (r: Client)
    requires Shaped(c.parameters, c.dim) && Addressable(c.parameters, keys) && Fits(c.parameters, keys, rows)
    ensures r.dim == c.dim && r.numMetaKeys == c.numMetaKeys && Shaped(r.parameters, r.dim)
    ensures |r.parameters| == |c.parameters|
    ensures forall i :: 0 <= i < |keys| ==> r.parameters[keys[i]] == rows[i]
    ensures forall k :: 0 <= k < |c.parameters| && k !in keys ==> r.parameters[k] == c.parameters[k]
  {
    WritesKeepShape(c.parameters, c.dim, keys, rows);
    c.(parameters := Table.Set(c.parameters, keys, rows))
  }

  /** Pushes a row of ones onto the stop row. */
  function Stop(c: Client): (r: Client)
    requires c.Holds(c.Meta().stop)
    ensures r.OnlyRowChanged(c, c.Meta().stop)
    ensures forall j :: 0 <= j < c.dim ==>
      r.parameters[c.Meta().stop][j] == c.parameters[c.Meta().stop][j] + 1.0
  {
    Push(c, [c.Meta().stop], [Filled(c.dim, 1.0)])
  }

  /** Pulls the stop row; stopped when some component of it is exactly 1. */
  function IsStopped(c: Client): (stopped: bool)
    requires c.Holds(c.Meta().stop)
    ensures stopped <==> exists j :: 0 <= j < c.dim && c.parameters[c.Meta().stop][j] == 1.0
  {
    var row := Pull(c, [c.Meta().stop])[0];
    exists j :: 0 <= j < |row| && row[j] == 1.0
  }

  /** Pushes a row of ones onto the group's step row. */
  function StepGroup(c: Client, g: Group): (r: Client)
    requires c.Holds(c.Meta().StepKey(g))
    ensures r.OnlyRowChanged(c, c.Meta().StepKey(g))
    ensures forall j :: 0 <= j < c.dim ==>
      r.parameters[c.Meta().StepKey(g)][j] == c.parameters[c.Meta().StepKey(g)][j] + 1.0
  {
    Push(c, [c.Meta().StepKey(g)], [Filled(c.dim, 1.0)])
  }

  /** `step_optim(name)`: increments the named group's counter row. */
  function StepOptim(c: Client, name: string): (r: Result<Client>)
    requires GroupKeyHeld(c, name, false)
    ensures r.Err? <==> name != "entity" && name != "relation"
    ensures r.Err? ==> r.error == AttributeError(name)
    ensures r.Ok? ==> r.value == StepGroup(c, ParseGroup(name).value)
  {
    match ParseGroup(name)
    case Err(e) => Err(e)
    case Ok(g) => Ok(StepGroup(c, g))
  }

  /** Component 0 of the group's step row, or IndexError when rows are empty. */
  function StepCount(c: Client, g: Group): (r: Result<real>)
    requires c.Holds(c.Meta().StepKey(g))
    ensures r.Err? <==> c.dim == 0
    ensures r.Err? ==> r.error == IndexError
    ensures r.Ok? ==> r.value == c.parameters[c.Meta().StepKey(g)][0]
  {
    var row := Pull(c, [c.Meta().StepKey(g)])[0];
    if |row| == 0 then Err(IndexError) else Ok(row[0])
  }

  /** `get_step_optim(name)`. */
  function GetStepOptim(c: Client, name: string): (r: Result<real>)
    requires GroupKeyHeld(c, name, false)
    ensures ParseGroup(name).Err? ==> r == Err(AttributeError(name))
    ensures ParseGroup(name).Ok? ==> r == StepCount(c, ParseGroup(name).value)
  {
    match ParseGroup(name)
    case Err(e) => Err(e)
    case Ok(g) => StepCount(c, g)
  }

  /** Overwrites the group's learning-rate row with `lr` in every component. */
  function SetGroupLr(c: Client, g: Group, lr: real): (r: Client)
    requires c.Holds(c.Meta().LrKey(g))
    ensures r.OnlyRowChanged(c, c.Meta().LrKey(g))
    ensures r.parameters[c.Meta().LrKey(g)] == Filled(c.dim, lr)
  {
    Set(c, [c.Meta().LrKey(g)], [Filled(c.dim, lr)])
  }

  /** `set_lr(name, lr)`. */
  function SetLr(c: Client, name: string, lr: real): (r: Result<Client>)
    requires GroupKeyHeld(c, name, true)
    ensures r.Err? <==> name != "entity" && name != "relation"
    ensures r.Err? ==> r.error == AttributeError(name)
    ensures r.Ok? ==> r.value == SetGroupLr(c, ParseGroup(name).value, lr)
  {
    match ParseGroup(name)
    case Err(e) => Err(e)
    case Ok(g) => Ok(SetGroupLr(c, g, lr))
  }

  /** Component 0 of the group's learning-rate row. */
  function GroupLr(c: Client, g: Group): (r: Result<real>)
    requires c.Holds(c.Meta().LrKey(g))
    ensures r.Err? <==> c.dim == 0
    ensures r.Err? ==> r.error == IndexError
    ensures r.Ok? ==> r.value == c.parameters[c.Meta().LrKey(g)][0]
  {
    var row := Pull(c, [c.Meta().LrKey(g)])[0];
    if |row| == 0 then Err(IndexError) else Ok(row[0])
  }

  /** `get_lr(name)`. */
  function GetLr(c: Client, name: string): (r: Result<real>)
    requires GroupKeyHeld(c, name, true)
    ensures ParseGroup(name).Err? ==> r == Err(AttributeError(name))
    ensures ParseGroup(name).Ok? ==> r == GroupLr(c, ParseGroup(name).value)
  {
    match ParseGroup(name)
    case Err(e) => Err(e)
    case Ok(g) => GroupLr(c, g)
  }

  // ----- properties of the control signals -----

  /** After `stop`, the client reports stopped exactly when some stop component was 0. */
  lemma StopThenStopped(c: Client)
    requires c.Holds(c.Meta().stop)
    ensures Stop(c).Holds(Stop(c).Meta().stop)
    ensures IsStopped(Stop(c)) <==> exists j :: 0 <= j < c.dim && c.parameters[c.Meta().stop][j] == 0.0
  {
  }

  /**
   * From an all-zero stop row: not stopped, stopped after one `stop`, and not
   * stopped again after a second one (the row then holds 2).
   */
  lemma StopCountsOnce(c: Client)
    requires c.Holds(c.Meta().stop) && c.dim >= 1
    requires c.parameters[c.Meta().stop] == Filled(c.dim, 0.0)
    ensures !IsStopped(c)
    ensures IsStopped(Stop(c))
    ensures !IsStopped(Stop(Stop(c)))
  {
    var s := c.Meta().stop;
    var once := Stop(c);
    var twice := Stop(once);
    assert once.parameters[s][0] == 1.0;
    assert forall j :: 0 <= j < c.dim ==> twice.parameters[s][j] == 2.0;
  }

  /** `get_step_optim` after `step_optim` returns the previous count plus one. */
  lemma StepThenCount(c: Client, name: string)
    requires GroupKeyHeld(c, name, false) && c.dim >= 1
    ensures StepOptim(c, name).Ok? ==>
      GetStepOptim(StepOptim(c, name).value, name) == Ok(GetStepOptim(c, name).value + 1.0)
  {
  }

  /** Stepping one group's counter leaves the stop row, the other counter and both learning rates alone. */
  lemma StepLeavesOtherSignals(c: Client, g: Group)
    requires SignalCount <= c.numMetaKeys <= |c.parameters| && Shaped(c.parameters, c.dim)
    ensures var m := c.Meta(); var r := StepGroup(c, g);
      && r.parameters[m.stop] == c.parameters[m.stop]
      && r.parameters[m.StepKey(g.Other())] == c.parameters[m.StepKey(g.Other())]
      && r.parameters[m.LrKey(Entity)] == c.parameters[m.LrKey(Entity)]
      && r.parameters[m.LrKey(Relation)] == c.parameters[m.LrKey(Relation)]
  {
  }

  /** `get_lr` after `set_lr` returns the rate that was set. */
  lemma SetLrThenGetLr(c: Client, name: string, lr: real)
    requires GroupKeyHeld(c, name, true) && c.dim >= 1
    ensures SetLr(c, name, lr).Ok? ==> GetLr(SetLr(c, name, lr).value, name) == Ok(lr)
  {
  }

  /** Setting one group's rate leaves the other group's rate and every embedding row alone. */
  lemma SetLrLeavesOtherRows(c: Client, g: Group, lr: real)
    requires SignalCount <= c.numMetaKeys <= |c.parameters| && Shaped(c.parameters, c.dim)
    ensures var m := c.Meta(); var r := SetGroupLr(c, g, lr);
      && r.parameters[m.LrKey(g.Other())] == c.parameters[m.LrKey(g.Other())]
      && forall k :: IsEmbeddingKey(|c.parameters|, c.numMetaKeys, k) ==> r.parameters[k] == c.parameters[k]
  {
  }

  /**
   * A freshly allocated store of 107 rows of width 100 with five meta keys:
   * the stop key is 102, it reads back as a zero row, and the client is not
   * stopped.
   */
  lemma FreshStore()
    ensures var c := Client(100, 5, Zeros(107, 100));
      && c.Meta().stop == 102
      && Pull(c, [102]) == [Filled(100, 0.0)]
      && !IsStopped(c)
  {
  }

  /** `n` calls of `step_optim` for one group. */
  function StepTimes(c: Client, g: Group, n: nat): (r: Client)
    requires c.Holds(c.Meta().StepKey(g))
    ensures r.OnlyRowChanged(c, c.Meta().StepKey(g))
    ensures r.Meta() == c.Meta() && r.Holds(r.Meta().StepKey(g))
    decreases n
  {
    if n == 0 then c else StepTimes(StepGroup(c, g), g, n - 1)
  }

  /** `n` steps raise every component of the counter row by exactly `n`. */
  lemma {:induction false} StepTimesCounts(c: Client, g: Group, n: nat)
    requires c.Holds(c.Meta().StepKey(g))
    ensures var k := c.Meta().StepKey(g);
      forall j :: 0 <= j < c.dim ==> StepTimes(c, g, n).parameters[k][j] == c.parameters[k][j] + n as real
    decreases n
  {
    if n > 0 {
      StepTimesCounts(StepGroup(c, g), g, n - 1);
    }
  }
}

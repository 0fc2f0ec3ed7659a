/**
 * The command-protocol client. Each call is modelled as the events it puts
 * on the connection to the server rank, together with what it returns; the
 * values the server sends back are parameters of the call.
 */
module TorchBackend {
  import opened Wrappers
  import opened Table
  import opened Layout
  import opened TorchProtocol
  import SharedBackend

  /**
   * A command-protocol client: row width, meta-region size and key count.
   * The server rank only addresses the events and is left implicit.
   */
  datatype Client = Client(dim: nat, numMetaKeys: int, numKeys: int)
  {
    /** The only meta key this client computes itself. */
    function StopKey(): int {
      Compute(numKeys, numMetaKeys).stop
    }
  }

  /** What one call puts on the wire and hands back to its caller. */
  datatype Exchange<T> = Exchange(events: seq<Event>, result: T)

  /**
   * `pull(keys, pull_tensor)`: the received block fills the caller's buffer.
   * This is the corrected reading in which the filled block is the call's
   * result whether or not the caller supplied the buffer.
   */
  function Pull(c: Client, keys: seq<int>, reply: Rows): (r: Exchange<Rows>)
    requires |reply| == |keys| && Shaped(reply, c.dim)
    ensures Decode(Frames(r.events)) == Some([PullReq(keys)])
    ensures forall i :: 0 <= i < |r.events| - 1 ==> r.events[i].Send?
    ensures r.events[|r.events| - 1] == Recv(RowBlock(|keys|, c.dim))
    ensures r.result == reply
  {
    var e := Encode(PullReq(keys), c.dim);
    DecodeEncode(PullReq(keys), c.dim);
    Exchange(e, reply)
  }

  /**
   * `pull` as written: the block is received into `pull_tensor` and the
   * method returns nothing, so the rows reach the caller only through a
   * buffer the caller passed in. Returns the rows the caller can see.
   */
  function PullAsWritten(c: Client, keys: seq<int>, callerBuffer: bool, reply: Rows): (visible: Option<Rows>)
    requires |reply| == |keys| && Shaped(reply, c.dim)
    ensures visible.Some? <==> callerBuffer
    ensures visible.Some? ==> visible.value == Pull(c, keys, reply).result
  {
    if callerBuffer then Some(reply) else None
  }

  /** Without a caller buffer, the rows pulled as written are lost even though they were received. */
  lemma PullWithoutBufferLosesRows(c: Client)
    requires c.dim >= 1
    ensures var reply := [Filled(c.dim, 1.0)];
      && PullAsWritten(c, [0], false, reply) == None
      && Pull(c, [0], reply).result == reply
  {
  }

  /**
   * `push(keys, rows)`: header, keys, payload; no answer. With one payload
   * row per key the server reads back exactly this push.
   */
  function Push(c: Client, keys: seq<int>, rows: Rows): (events: seq<Event>)
    ensures Frames(events) == [Header(PushCmd, |keys|), Keys(keys), Payload(rows)]
    ensures |rows| == |keys| ==> Decode(Frames(events)) == Some([PushReq(keys, rows)])
    ensures forall i :: 0 <= i < |events| ==> events[i].Send?
  {
    DecodeEncode(PushReq(keys, rows), c.dim);
    Encode(PushReq(keys, rows), c.dim)
  }

  /**
   * `set(keys, rows)`: header, keys, payload; no answer. With one payload
   * row per key the server reads back exactly this set.
   */
  function Set(c: Client, keys: seq<int>, rows: Rows): (events: seq<Event>)
    ensures Frames(events) == [Header(SetCmd, |keys|), Keys(keys), Payload(rows)]
    ensures |rows| == |keys| ==> Decode(Frames(events)) == Some([SetReq(keys, rows)])
    ensures forall i :: 0 <= i < |events| ==> events[i].Send?
  {
    DecodeEncode(SetReq(keys, rows), c.dim);
    Encode(SetReq(keys, rows), c.dim)
  }

  /** `stop()`: a push of one row of ones onto the stop key. */
  function Stop(c: Client): (events: seq<Event>)
    ensures Decode(Frames(events)) == Some([PushReq([c.StopKey()], [Filled(c.dim, 1.0)])])
    ensures forall i :: 0 <= i < |events| ==> events[i].Send?
  {
    Push(c, [c.StopKey()], [Filled(c.dim, 1.0)])
  }

  /** `shutdown()`: the header `[SHUTDOWN, 0]` and nothing else. */
  function Shutdown(c: Client): (events: seq<Event>)
    ensures events == [Send(Header(ShutdownCmd, 0))]
    ensures Decode(Frames(events)) == Some([ShutdownReq])
  {
    DecodeEncode(ShutdownReq, c.dim);
    Encode(ShutdownReq, c.dim)
  }

  /** `is_stopped()`: pulls the stop row and reports whether any component is exactly 1. */
  function IsStopped(c: Client, reply: Row): (r: Exchange<bool>)
    requires |reply| == c.dim
    ensures r.events == Pull(c, [c.StopKey()], [reply]).events
    ensures r.result <==> exists j :: 0 <= j < |reply| && reply[j] == 1.0
  {
    var p := Pull(c, [c.StopKey()], [reply]);
    Exchange(p.events, exists j :: 0 <= j < |p.result[0]| && p.result[0][j] == 1.0)
  }

  /** The group index sent by the step commands: 0 for "entity", 1 for every other name. */
  function GroupIndex(name: string): (i: int)
    ensures i == 0 || i == 1
    ensures i == 0 <==> name == "entity"
  {
    if name == "entity" then 0 else 1
  }

  /** `step_optim(name)`: the header `[STEP_OPTIM, index]`; never fails. */
  function StepOptim(c: Client, name: string): (events: seq<Event>)
    ensures Decode(Frames(events)) == Some([StepOptimReq(GroupIndex(name))])
    ensures forall i :: 0 <= i < |events| ==> events[i].Send?
  {
    var req := StepOptimReq(GroupIndex(name));
    DecodeEncode(req, c.dim);
    Encode(req, c.dim)
  }

  /**
   * `get_step_optim(name)`: sends `[GET_OPTIM_STEP, index]`, receives a
   * two-integer block into the same buffer and returns its element 1.
   */
  function GetStepOptim(c: Client, name: string, reply: (int, int)): (r: Exchange<int>)
    ensures Decode(Frames(r.events)) == Some([GetStepOptimReq(GroupIndex(name))])
    ensures forall i :: 0 <= i < |r.events| - 1 ==> r.events[i].Send?
    ensures r.events[|r.events| - 1] == Recv(HeaderBlock)
    ensures r.result == reply.1
  {
    var req := GetStepOptimReq(GroupIndex(name));
    DecodeEncode(req, c.dim);
    Exchange(Encode(req, c.dim), reply.1)
  }

  function UpperChar(ch: char): char {
    if 'a' <= ch <= 'z' then (ch as int - 32) as char else ch
  }

  /** ASCII upper-casing of a group name, as `str.upper` does on ASCII text. */
  function Upper(s: string): string
  {
    seq(|s|, i requires 0 <= i < |s| => UpperChar(s[i]))
  }

  /**
   * The group whose `GET_<NAME>_LR_CMD` / `SET_<NAME>_LR_CMD` command exists
   * for the upper-cased name; any other name is an attribute error.
   */
  function LrGroup(name: string): (r: Result<Group>)
    ensures r == Ok(Entity) <==> Upper(name) == "ENTITY"
    ensures r == Ok(Relation) <==> Upper(name) == "RELATION"
    ensures r.Err? ==> r.error == AttributeError(Upper(name))
  {
    var u := Upper(name);
    if u == "ENTITY" then Ok(Entity)
    else if u == "RELATION" then Ok(Relation)
    else Err(AttributeError(u))
  }

  /** `get_lr(name)`: sends `[GET_<NAME>_LR, 0]`, receives one float and returns it. */
  function GetLr(c: Client, name: string, reply: real): (r: Result<Exchange<real>>)
    ensures r.Err? <==> LrGroup(name).Err?
    ensures r.Ok? ==> Decode(Frames(r.value.events)) == Some([GetLrReq(LrGroup(name).value)])
    ensures r.Ok? ==> forall i :: 0 <= i < |r.value.events| - 1 ==> r.value.events[i].Send?
    ensures r.Ok? ==> r.value.events[|r.value.events| - 1] == Recv(ScalarBlock)
    ensures r.Ok? ==> r.value.result == reply
  {
    match LrGroup(name)
    case Err(e) => Err(e)
    case Ok(g) =>
      DecodeEncode(GetLrReq(g), c.dim);
      Ok(Exchange(Encode(GetLrReq(g), c.dim), reply))
  }

  /** `set_lr(name, lr)`: sends `[SET_<NAME>_LR, 0]` and then the one-float block `lr`. */
  function SetLr(c: Client, name: string, lr: real): (r: Result<seq<Event>>)
    ensures r.Err? <==> LrGroup(name).Err?
    ensures r.Ok? ==> Decode(Frames(r.value)) == Some([SetLrReq(LrGroup(name).value, lr)])
    ensures r.Ok? ==> forall i :: 0 <= i < |r.value| ==> r.value[i].Send?
  {
    match LrGroup(name)
    case Err(e) => Err(e)
    case Ok(g) =>
      DecodeEncode(SetLrReq(g, lr), c.dim);
      Ok(Encode(SetLrReq(g, lr), c.dim))
  }

  // ----- agreement with the other backends -----

  /**
   * The two backends resolve group names differently: the command client
   * upper-cases the learning-rate name and sends index 1 for any step name
   * other than "entity", while the shared-memory client accepts only the
   * two literal names.
   */
  lemma GroupNamesDiverge()
    ensures LrGroup("Entity") == Ok(Entity)
    ensures SharedBackend.ParseGroup("Entity").Err?
    ensures GroupIndex("bogus") == GroupIndex("relation") == 1
    ensures SharedBackend.ParseGroup("bogus").Err?
  {
  }

  /** The stop key is the shared backend's stop key when both see the same key count. */
  lemma StopKeyAgrees(c: Client, s: SharedBackend.Client)
    requires c.numKeys == |s.parameters| && c.numMetaKeys == s.numMetaKeys
    ensures c.StopKey() == s.Meta().stop == c.numKeys - c.numMetaKeys
  {
  }

  /**
   * When the server answers the stop-row pull with the stored stop row, the
   * command client reports stopped exactly when the shared client does, and
   * the push `stop` sends turns the table into the shared client's.
   */
  lemma StopAgreesWithShared(c: Client, s: SharedBackend.Client)
    requires c.numKeys == |s.parameters| && c.numMetaKeys == s.numMetaKeys && c.dim == s.dim
    requires s.Holds(s.Meta().stop)
    ensures IsStopped(c, s.parameters[c.StopKey()]).result == SharedBackend.IsStopped(s)
    ensures Decode(Frames(Stop(c))) == Some([PushReq([c.StopKey()], [Filled(c.dim, 1.0)])])
    ensures Table.Push(s.parameters, [c.StopKey()], [Filled(c.dim, 1.0)]) == SharedBackend.Stop(s).parameters
  {
  }
}

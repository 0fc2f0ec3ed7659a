/**
 * The command protocol spoken by the point-to-point backend. Every request
 * opens with a two-integer header `[command, n]`; pull, push and set follow
 * it with the `n` keys, push and set then send the `n` payload rows, and the
 * requests that return data end with one blocking receive.
 *
 * `Decode` is a reference reader of the client's send stream: it splits the
 * stream back into requests using only the header's command and length.
 */
module TorchProtocol {
  import opened Wrappers
  import opened Table
  import opened Layout

  /** The server's command codes, kept abstract: only their distinctness matters. */
  datatype Command =
    | PullCmd | PushCmd | SetCmd | ShutdownCmd | StepOptimCmd | GetOptimStepCmd
    | GetEntityLrCmd | GetRelationLrCmd | SetEntityLrCmd | SetRelationLrCmd

  /** One tensor the client sends. */
  datatype Frame =
    | Header(cmd: Command, arg: int)
    | Keys(keys: seq<int>)
    | Payload(rows: Rows)
    | Scalar(value: real)

  /** The shape of a block the client waits for. */
  datatype Expect = RowBlock(count: nat, width: nat) | HeaderBlock | ScalarBlock

  datatype Event = Send(frame: Frame) | Recv(block: Expect)

  datatype Request =
    | PullReq(keys: seq<int>)
    | PushReq(keys: seq<int>, rows: Rows)
    | SetReq(keys: seq<int>, rows: Rows)
    | ShutdownReq
    | StepOptimReq(index: int)
    | GetStepOptimReq(index: int)
    | GetLrReq(group: Group)
    | SetLrReq(group: Group, lr: real)
  {
    /** Requests the client can produce: one payload row per key, a group index of 0 or 1. */
    predicate WellFramed() {
      match this
      case PushReq(keys, rows) => |rows| == |keys|
      case SetReq(keys, rows) => |rows| == |keys|
      case StepOptimReq(i) => i == 0 || i == 1
      case GetStepOptimReq(i) => i == 0 || i == 1
      case _ => true
    }

    /** Requests that wait for an answer from the server. */
    predicate Returns() {
      PullReq? || GetStepOptimReq? || GetLrReq?
    }
  }

  function GetLrCommand(g: Group): Command {
    if g == Entity then GetEntityLrCmd else GetRelationLrCmd
  }

  function SetLrCommand(g: Group): Command {
    if g == Entity then SetEntityLrCmd else SetRelationLrCmd
  }

  /** The frames a request sends, in order. */
  function RequestFrames(req: Request): (frames: seq<Frame>)
    ensures |frames| >= 1 && frames[0].Header?
    ensures req.PullReq? || req.PushReq? || req.SetReq? ==>
              |frames| >= 2 && frames[0].arg == |req.keys| && frames[1] == Keys(req.keys)
    ensures req.PushReq? || req.SetReq? ==> frames == frames[..2] + [Payload(req.rows)]
    ensures req.StepOptimReq? || req.GetStepOptimReq? ==> frames == [Header(frames[0].cmd, req.index)]
    ensures req.ShutdownReq? || req.GetLrReq? ==> frames == [Header(frames[0].cmd, 0)]
    ensures req.SetLrReq? ==> frames == [Header(frames[0].cmd, 0), Scalar(req.lr)]
  {
    match req
    case PullReq(keys) => [Header(PullCmd, |keys|), Keys(keys)]
    case PushReq(keys, rows) => [Header(PushCmd, |keys|), Keys(keys), Payload(rows)]
    case SetReq(keys, rows) => [Header(SetCmd, |keys|), Keys(keys), Payload(rows)]
    case ShutdownReq => [Header(ShutdownCmd, 0)]
    case StepOptimReq(i) => [Header(StepOptimCmd, i)]
    case GetStepOptimReq(i) => [Header(GetOptimStepCmd, i)]
    case GetLrReq(g) => [Header(GetLrCommand(g), 0)]
    case SetLrReq(g, lr) => [Header(SetLrCommand(g), 0), Scalar(lr)]
  }

  /** The block a data-returning request waits for; nothing for the others. */
  function Answer(req: Request, dim: nat): seq<Event> {
    match req
    case PullReq(keys) => [Recv(RowBlock(|keys|, dim))]
    case GetStepOptimReq(_) => [Recv(HeaderBlock)]
    case GetLrReq(_) => [Recv(ScalarBlock)]
    case _ => []
  }

  function Sends(frames: seq<Frame>): seq<Event>
  {
    seq(|frames|, i requires 0 <= i < |frames| => Send(frames[i]))
  }

  /**
   * The events of one request, for rows of width `dim`: its frames are sent
   * first, and a receive, if any, is the last event.
   */
  function Encode(req: Request, dim: nat): (events: seq<Event>)
    ensures |events| >= 1 && events[0].Send? && events[0].frame.Header?
    ensures forall i :: 0 <= i < |events| - 1 ==> events[i].Send?
    ensures req.Returns() <==> events[|events| - 1].Recv?
    ensures Frames(events) == RequestFrames(req)
  {
    var frames := RequestFrames(req);
    FramesOfSends(frames);
    FramesAppend(Sends(frames), Answer(req, dim));
    assert Frames(Answer(req, dim)) == [];
    Sends(frames) + Answer(req, dim)
  }

  /** The events of a sequence of requests issued one after another. */
  function EncodeAll(reqs: seq<Request>, dim: nat): seq<Event>
  {
    if |reqs| == 0 then [] else Encode(reqs[0], dim) + EncodeAll(reqs[1..], dim)
  }

  /** What the server sees: the sent frames, in order. */
  function Frames(events: seq<Event>): seq<Frame>
  {
    if |events| == 0 then []
    else (if events[0].Send? then [events[0].frame] else []) + Frames(events[1..])
  }

  function CountRecvs(events: seq<Event>): nat
  {
    if |events| == 0 then 0
    else (if events[0].Recv? then 1 else 0) + CountRecvs(events[1..])
  }

  /** Number of requests in `reqs` that wait for an answer. */
  function Answers(reqs: seq<Request>): nat {
    if |reqs| == 0 then 0 else (if reqs[0].Returns() then 1 else 0) + Answers(reqs[1..])
  }

  /**
   * The header's command names the request: two requests whose headers carry
   * the same command are of the same kind, and for the learning-rate
   * commands also of the same group.
   */
  lemma HeaderNamesRequest(a: Request, b: Request)
    requires RequestFrames(a)[0].cmd == RequestFrames(b)[0].cmd
    ensures a.PullReq? == b.PullReq? && a.PushReq? == b.PushReq? && a.SetReq? == b.SetReq?
    ensures a.ShutdownReq? == b.ShutdownReq?
    ensures a.StepOptimReq? == b.StepOptimReq? && a.GetStepOptimReq? == b.GetStepOptimReq?
    ensures a.GetLrReq? == b.GetLrReq? && a.SetLrReq? == b.SetLrReq?
    ensures (a.GetLrReq? || a.SetLrReq?) ==> a.group == b.group
  {
  }

  lemma {:induction false} FramesOfSends(frames: seq<Frame>)
    ensures Frames(Sends(frames)) == frames
    decreases |frames|
  {
    if |frames| > 0 {
      assert Sends(frames)[1..] == Sends(frames[1..]);
      FramesOfSends(frames[1..]);
    }
  }

  lemma {:induction false} FramesAppend(a: seq<Event>, b: seq<Event>)
    ensures Frames(a + b) == Frames(a) + Frames(b)
    decreases |a|
  {
    if |a| == 0 {
      assert a + b == b;
    } else {
      assert (a + b)[0] == a[0];
      assert (a + b)[1..] == a[1..] + b;
      FramesAppend(a[1..], b);
    }
  }

  lemma {:induction false} CountRecvsAppend(a: seq<Event>, b: seq<Event>)
    ensures CountRecvs(a + b) == CountRecvs(a) + CountRecvs(b)
    decreases |a|
  {
    if |a| == 0 {
      assert a + b == b;
    } else {
      assert (a + b)[0] == a[0];
      assert (a + b)[1..] == a[1..] + b;
      CountRecvsAppend(a[1..], b);
    }
  }

  lemma {:induction false} NoRecvsInSends(frames: seq<Frame>)
    ensures CountRecvs(Sends(frames)) == 0
    decreases |frames|
  {
    if |frames| > 0 {
      assert Sends(frames)[1..] == Sends(frames[1..]);
      NoRecvsInSends(frames[1..]);
    }
  }

  /** Reads one request off the front of `frames`: the request and the number of frames it used. */
  function DecodeOne(frames: seq<Frame>): (r: Option<(Request, nat)>)
    requires |frames| > 0
    ensures r.Some? ==> 1 <= r.value.1 <= |frames|
  {
    match frames[0]
    case Header(cmd, n) => (
      match cmd
      case PullCmd =>
        if |frames| >= 2 && frames[1].Keys? && |frames[1].keys| == n
        then Some((PullReq(frames[1].keys), 2)) else None
      case PushCmd =>
        if |frames| >= 3 && frames[1].Keys? && |frames[1].keys| == n
           && frames[2].Payload? && |frames[2].rows| == n
        then Some((PushReq(frames[1].keys, frames[2].rows), 3)) else None
      case SetCmd =>
        if |frames| >= 3 && frames[1].Keys? && |frames[1].keys| == n
           && frames[2].Payload? && |frames[2].rows| == n
        then Some((SetReq(frames[1].keys, frames[2].rows), 3)) else None
      case ShutdownCmd =>
        if n == 0 then Some((ShutdownReq, 1)) else None
      case StepOptimCmd =>
        if n == 0 || n == 1 then Some((StepOptimReq(n), 1)) else None
      case GetOptimStepCmd =>
        if n == 0 || n == 1 then Some((GetStepOptimReq(n), 1)) else None
      case GetEntityLrCmd =>
        if n == 0 then Some((GetLrReq(Entity), 1)) else None
      case GetRelationLrCmd =>
        if n == 0 then Some((GetLrReq(Relation), 1)) else None
      case SetEntityLrCmd =>
        if n == 0 && |frames| >= 2 && frames[1].Scalar?
        then Some((SetLrReq(Entity, frames[1].value), 2)) else None
      case SetRelationLrCmd =>
        if n == 0 && |frames| >= 2 && frames[1].Scalar?
        then Some((SetLrReq(Relation, frames[1].value), 2)) else None
      )
    case _ => None
  }

  /** Splits a whole send stream into requests, or fails on a malformed frame. */
  function Decode(frames: seq<Frame>): Option<seq<Request>>
    decreases |frames|
  {
    if |frames| == 0 then Some([])
    else match DecodeOne(frames)
      case None => None
      case Some((req, used)) =>
        match Decode(frames[used..])
        case None => None
        case Some(rest) => Some([req] + rest)
  }

  /** A well-framed request is read back whole from the front of any stream. */
  lemma DecodeOneEncode(req: Request, dim: nat, rest: seq<Frame>)
    requires req.WellFramed()
    ensures DecodeOne(RequestFrames(req) + rest) == Some((req, |RequestFrames(req)|))
  {
  }

  /** Any session of well-framed requests is read back exactly, in order. */
  lemma {:induction false} DecodeEncodeAll(reqs: seq<Request>, dim: nat)
    requires forall i :: 0 <= i < |reqs| ==> reqs[i].WellFramed()
    ensures Decode(Frames(EncodeAll(reqs, dim))) == Some(reqs)
    decreases |reqs|
  {
    if |reqs| > 0 {
      var head := Encode(reqs[0], dim);
      var tail := EncodeAll(reqs[1..], dim);
      FramesAppend(head, tail);
      var f := Frames(head);
      assert f == RequestFrames(reqs[0]);
      DecodeOneEncode(reqs[0], dim, Frames(tail));
      assert (f + Frames(tail))[|f|..] == Frames(tail);
      DecodeEncodeAll(reqs[1..], dim);
      assert [reqs[0]] + reqs[1..] == reqs;
    }
  }

  /** A single well-framed request is read back from its own send stream. */
  lemma DecodeEncode(req: Request, dim: nat)
    ensures req.WellFramed() ==> Decode(Frames(Encode(req, dim))) == Some([req])
  {
    if req.WellFramed() {
      DecodeEncodeAll([req], dim);
      assert EncodeAll([req], dim) == Encode(req, dim) + [];
    }
  }

  /** A request waits on the server exactly once if it returns data, and never otherwise. */
  lemma EncodeRecvs(req: Request, dim: nat)
    ensures CountRecvs(Encode(req, dim)) == if req.Returns() then 1 else 0
  {
    CountRecvsAppend(Sends(RequestFrames(req)), Answer(req, dim));
    NoRecvsInSends(RequestFrames(req));
  }

  /** A session waits on the server exactly once per data-returning request. */
  lemma {:induction false} OneReceivePerAnswer(reqs: seq<Request>, dim: nat)
    ensures CountRecvs(EncodeAll(reqs, dim)) == Answers(reqs)
    decreases |reqs|
  {
    if |reqs| > 0 {
      CountRecvsAppend(Encode(reqs[0], dim), EncodeAll(reqs[1..], dim));
      EncodeRecvs(reqs[0], dim);
      OneReceivePerAnswer(reqs[1..], dim);
    }
  }
}

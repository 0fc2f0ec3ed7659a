/**
 * The client facade: the factory that picks a backend by name, and which
 * implementation each backend class ends up with for each facade operation
 * once its own methods, the embedded engine's worker class (for the Lapse
 * backend, which inherits from it first) and the base-class defaults are
 * taken into account.
 */
module Facade {
  import opened Wrappers
  import opened Layout

  datatype Class = Base | LapseClass | TorchClass | SharedClass

  /** The configuration value that selects each concrete backend. */
  function BackendName(c: Class): string {
    match c
    case Base => ""
    case LapseClass => "lapse"
    case TorchClass => "torch"
    case SharedClass => "shared"
  }

  /** `create`: dispatch on the configured backend name; unknown names are a ValueError. */
  function Create(name: string): (r: Result<Class>)
    ensures r.Ok? <==> name == "lapse" || name == "torch" || name == "shared"
    ensures r.Ok? ==> r.value != Base && BackendName(r.value) == name
    ensures r.Err? ==> r.error == ValueError(name)
  {
    if name == "lapse" then Ok(LapseClass)
    else if name == "torch" then Ok(TorchClass)
    else if name == "shared" then Ok(SharedClass)
    else Err(ValueError(name))
  }

  /** Every backend is reached by its own name. */
  lemma CreateByName(c: Class)
    requires c != Base
    ensures Create(BackendName(c)) == Ok(c)
  {
  }

  datatype Op =
    | Pull | Push | Set | AdvanceClock | CurrentClock | Localize | Intent | Wait
    | Barrier | BarrierEval | Shutdown | Stop | IsStopped
    | StepOptim | GetStepOptim | GetLr | SetLr

  function OpName(op: Op): string {
    match op
    case Pull => "pull"
    case Push => "push"
    case Set => "set"
    case AdvanceClock => "advance_clock"
    case CurrentClock => "current_clock"
    case Localize => "localize"
    case Intent => "intent"
    case Wait => "wait"
    case Barrier => "barrier"
    case BarrierEval => "barrier_eval"
    case Shutdown => "shutdown"
    case Stop => "stop"
    case IsStopped => "is_stopped"
    case StepOptim => "step_optim"
    case GetStepOptim => "get_step_optim"
    case GetLr => "get_lr"
    case SetLr => "set_lr"
  }

  /** What calling an operation does, as far as dispatch decides it. */
  datatype Behaviour =
    | NoOp                 // returns nothing, changes nothing
    | ReturnsFalse
    | Raises(error: Error)
    | Own                  // the backend's own implementation, modelled in its module
    | FromEngine           // the engine's worker class if it defines it, else the base class

  /**
   * The base class: no-op and `False` defaults, NotImplementedError for the
   * operations it declares abstract, and an attribute error for the
   * operations it does not define at all.
   */
  function BaseBehaviour(op: Op): Behaviour {
    match op
    case AdvanceClock => NoOp
    case Wait => NoOp
    case Shutdown => NoOp
    case Stop => NoOp
    case IsStopped => ReturnsFalse
    case Pull => Raises(NotImplementedError)
    case Push => Raises(NotImplementedError)
    case Set => Raises(NotImplementedError)
    case CurrentClock => Raises(NotImplementedError)
    case Localize => Raises(NotImplementedError)
    case Intent => Raises(NotImplementedError)
    case Barrier => Raises(NotImplementedError)
    case _ => Raises(AttributeError(OpName(op)))
  }

  /**
   * The base class's defaults: `is_stopped` answers `False`, the clock,
   * wait, shutdown and stop do nothing, the data-plane operations,
   * `current_clock`, `localize`, `intent` and `barrier` raise
   * NotImplementedError, and the operations the base class does not define
   * at all are attribute errors.
   */
  lemma BaseDefaults()
    ensures Resolve(Base, IsStopped) == ReturnsFalse
    ensures forall op :: op in {AdvanceClock, Wait, Shutdown, Stop} ==> Resolve(Base, op) == NoOp
    ensures forall op :: op in {Pull, Push, Set, CurrentClock, Localize, Intent, Barrier} ==>
      Resolve(Base, op) == Raises(NotImplementedError)
    ensures forall op :: op in {BarrierEval, StepOptim, GetStepOptim, GetLr, SetLr} ==>
      Resolve(Base, op) == Raises(AttributeError(OpName(op)))
  {
  }

  /** Operations a class defines in its own body. */
  function Defines(c: Class): set<Op> {
    match c
    case Base => {}
    case LapseClass =>
      {Pull, Push, Set, AdvanceClock, CurrentClock, Localize, Intent, Wait, Barrier, BarrierEval,
       Stop, IsStopped, StepOptim, GetStepOptim, GetLr, SetLr}
    case TorchClass =>
      {Pull, Push, Set, Localize, Barrier, BarrierEval, Stop, Shutdown, IsStopped,
       StepOptim, GetStepOptim, GetLr, SetLr}
    case SharedClass =>
      {Pull, Push, Set, Localize, Barrier, BarrierEval, Stop, IsStopped,
       StepOptim, GetStepOptim, GetLr, SetLr}
  }

  /**
   * The behaviour a call of `op` on an instance of `c` resolves to. Own
   * `localize` is a deliberate gap on the Lapse backend and a no-op on the
   * other two; operations a backend does not define fall back to the engine
   * (Lapse) or the base class.
   */
  function Resolve(c: Class, op: Op): (b: Behaviour)
    ensures c == Base ==> b == BaseBehaviour(op)
    ensures op == Localize ==> (b.Raises? <==> c == Base || c == LapseClass)
    ensures op == Localize && b.Raises? ==> b.error == NotImplementedError
    ensures op == Localize && (c == TorchClass || c == SharedClass) ==> b == NoOp
    ensures c != Base ==> !(b.Raises? && b.error.AttributeError?)
    ensures c != Base && op in Defines(c) && op != Localize ==> b == Own
    ensures (c == TorchClass || c == SharedClass) && op !in Defines(c) ==> b == BaseBehaviour(op)
  {
    if op in Defines(c) then
      if op == Localize then (if c == LapseClass then Raises(NotImplementedError) else NoOp)
      else Own
    else if c == LapseClass then FromEngine
    else BaseBehaviour(op)
  }

  /**
   * The command-protocol and shared-memory backends inherit the base
   * class's no-op clock and wait, and its NotImplementedError for
   * `current_clock` and `intent`; the shared-memory backend also inherits
   * the no-op `shutdown`.
   */
  lemma InheritedByTorchAndShared(c: Class)
    requires c == TorchClass || c == SharedClass
    ensures Resolve(c, AdvanceClock) == NoOp && Resolve(c, Wait) == NoOp
    ensures Resolve(c, CurrentClock) == Raises(NotImplementedError)
    ensures Resolve(c, Intent) == Raises(NotImplementedError)
    ensures Resolve(SharedClass, Shutdown) == NoOp && Resolve(TorchClass, Shutdown) == Own
  {
  }

  /** The Lapse backend computes the same five meta keys as the shared-memory backend. */
  datatype LapseClient = LapseClient(numKeys: int, numMetaKeys: int)
  {
    function Meta(): MetaKeys {
      Compute(numKeys, numMetaKeys)
    }
  }

  /**
   * With five meta keys and at least five keys, the Lapse client's control
   * signals sit on the last five keys of the engine, in the order stop,
   * entity step, relation step, entity rate, relation rate.
   */
  lemma LapseMetaKeys(l: LapseClient)
    requires l.numMetaKeys == SignalCount && l.numKeys >= SignalCount
    ensures forall i :: 0 <= i < SignalCount ==> l.Meta().Keys()[i] == l.numKeys - SignalCount + i
    ensures forall i :: 0 <= i < SignalCount ==> 0 <= l.Meta().Keys()[i] < l.numKeys
    ensures forall k :: 0 <= k < l.numKeys ==> (k in l.Meta().Keys() <==> !IsEmbeddingKey(l.numKeys, l.numMetaKeys, k))
  {
  }
}

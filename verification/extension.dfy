/**
 * Registration and dispatch of native extension functions (rencpp's
 * FunctionGenerator and the REN_STD_FUNCTION shim).
 *
 * The interpreter can only call a closure-free `int (*)(RenCell *)`.  Each
 * registered callable therefore gets a "shim" that learns, on its first call,
 * which table index it stands for and which signature's dispatcher to bounce
 * to; every later call forwards `(id, stack)` to that dispatcher, which copies
 * the table entry out, converts the argument cells to typed values, calls the
 * callable and writes the result into the stack's return cell.
 *
 * The model is sequential: the global mutex is not modelled.
 */
module Extension {

  /** Identifies the interpreter instance that owns a registration. */
  type EngineHandle = nat

  /** Identifies one native parameter (or return) type of a signature. */
  type TypeTag = nat

  /** A tagged interpreter cell: its runtime type tag and an opaque payload. */
  datatype Cell = Cell(tag: TypeTag, payload: int)

  /** A typed value built from a cell; `cell` is what gets written back to the stack. */
  datatype Value = Value(cell: Cell)

  datatype Option<T> = None | Some(value: T)

  /** The status codes a native routine reports: REN_SUCCESS and REN_SHIM_INITIALIZED. */
  datatype Status = Success | ShimInitialized

  /** How a call ends when it does not return a status (a C++ exception or fault). */
  datatype Failure =
    | NullStack          // a bound shim asked to dispatch on the handshake's null stack
    | ConversionFailed   // the conversion of an argument cell threw
    | EmptyCallable      // std::bad_function_call from an entry registered without a callable

  datatype Result<T> = Ok(value: T) | Err(failure: Failure)

  /** The user's typed callable, applied to its converted arguments in order. */
  type Callable = seq<Value> -> Value

  /** Value::construct: builds the value of a parameter type from a cell, or throws (None). */
  type Construct = (EngineHandle, TypeTag, Cell) -> Option<Value>

  /**
   * The template arguments `<R, Ts...>` of one FunctionGenerator instantiation.
   * `result` (R) only tells signatures apart: the callable's result value
   * carries its own cell, so dispatch never consults it.
   */
  datatype Signature = Signature(params: seq<TypeTag>, result: TypeTag)

  /**
   * One row of a signature's table (TableEntry).  `fun` is None for an empty
   * std::function, which is what the constructor's default argument stores.
   */
  datatype Entry = Entry(engine: EngineHandle, fun: Option<Callable>)

  /** What one dispatch reports and what the stack's cells are afterwards. */
  datatype Dispatched = Dispatched(outcome: Result<Status>, cells: seq<Cell>)

  // ---------------------------------------------------------------------------
  // Stack layout (REN_STACK_RETURN / REN_STACK_ARGUMENT)
  // ---------------------------------------------------------------------------

  /** Offset of the return cell in a native call's stack. */
  const RETURN_SLOT: nat := 0

  /** Offset of the cell holding argument `i`. */
  function ArgSlot(i: nat): (k: nat)
    ensures k != RETURN_SLOT
  {
    i + 1
  }

  /** Number of cells a stack needs for a call of the given arity. */
  function FrameSize(arity: nat): (n: nat)
    ensures RETURN_SLOT < n
    ensures forall i :: 0 <= i < arity ==> ArgSlot(i) < n
  {
    arity + 1
  }

  // ---------------------------------------------------------------------------
  // applyFun / applyFunImpl: positional conversion and application
  // ---------------------------------------------------------------------------

  /** Every argument cell converts to its declared parameter type. */
  predicate AllConvert(engine: EngineHandle, params: seq<TypeTag>, construct: Construct, stack: seq<Cell>)
    requires FrameSize(|params|) <= |stack|
  {
    forall i :: 0 <= i < |params| ==> construct(engine, params[i], stack[ArgSlot(i)]).Some?
  }

  /** Reference definition of the argument tuple: parameter i is built from argument cell i. */
  function ArgValues(engine: EngineHandle, params: seq<TypeTag>, construct: Construct, stack: seq<Cell>): seq<Value>
    requires FrameSize(|params|) <= |stack|
    requires AllConvert(engine, params, construct, stack)
  {
    seq(|params|, i requires 0 <= i < |params| => construct(engine, params[i], stack[ArgSlot(i)]).value)
  }

  /**
   * The pack expansion `Value::construct<Ts_i>(engine, *REN_STACK_ARGUMENT(stack, i))...`:
   * converts the first |params| argument cells, failing if any conversion throws.
   */
  function ConvertArgs(engine: EngineHandle, params: seq<TypeTag>, construct: Construct, stack: seq<Cell>): (r: Option<seq<Value>>)
    requires FrameSize(|params|) <= |stack|
    ensures r.Some? <==> AllConvert(engine, params, construct, stack)
    ensures r.Some? ==> r.value == ArgValues(engine, params, construct, stack)
    decreases |params|
  {
    if |params| == 0 then Some([])
    else
      var n := |params| - 1;
      match ConvertArgs(engine, params[..n], construct, stack)
      case None => None
      case Some(front) =>
        match construct(engine, params[n], stack[ArgSlot(n)])
        case None => None
        case Some(v) => Some(front + [v])
  }

  /**
   * applyFun: the callable applied once to the converted argument tuple.  The
   * arguments are converted before the call operator runs, so a throwing
   * conversion wins over the bad_function_call of an empty callable.
   */
  function ApplyFun(fun: Option<Callable>, engine: EngineHandle, params: seq<TypeTag>, construct: Construct, stack: seq<Cell>): (r: Result<Value>)
    requires FrameSize(|params|) <= |stack|
    ensures r.Ok? <==> AllConvert(engine, params, construct, stack) && fun.Some?
    ensures !AllConvert(engine, params, construct, stack) ==> r == Err(ConversionFailed)
    ensures AllConvert(engine, params, construct, stack) && fun.None? ==> r == Err(EmptyCallable)
    ensures r.Ok? ==> r.value == fun.value(ArgValues(engine, params, construct, stack))
  {
    match ConvertArgs(engine, params, construct, stack)
    case None => Err(ConversionFailed)
    case Some(args) =>
      match fun
      case None => Err(EmptyCallable)
      case Some(f) => Ok(f(args))
  }

  /**
   * The effect of bounceShim on the stack's cells, given the copied-out entry:
   * on success only the return cell changes; a failed call changes nothing.
   */
  function Dispatch(entry: Entry, params: seq<TypeTag>, construct: Construct, stack: seq<Cell>): (d: Dispatched)
    requires FrameSize(|params|) <= |stack|
    ensures d.outcome != Ok(ShimInitialized)
    ensures d.outcome.Ok? <==> AllConvert(entry.engine, params, construct, stack) && entry.fun.Some?
    ensures d.outcome.Ok? ==>
      d.outcome == Ok(Success) &&
      d.cells == stack[RETURN_SLOT := entry.fun.value(ArgValues(entry.engine, params, construct, stack)).cell]
    ensures d.outcome.Err? ==>
      d.cells == stack &&
      d.outcome == Err(if AllConvert(entry.engine, params, construct, stack) then EmptyCallable else ConversionFailed)
  {
    match ApplyFun(entry.fun, entry.engine, params, construct, stack)
    case Err(f) => Dispatched(Err(f), stack)
    case Ok(v) => Dispatched(Ok(Success), stack[RETURN_SLOT := v.cell])
  }

  /** The argument tuple depends on the argument cells only, never on the return cell or other cells. */
  lemma ArgumentsReadOnlyArgumentSlots(fun: Option<Callable>, engine: EngineHandle, params: seq<TypeTag>, construct: Construct, s: seq<Cell>, t: seq<Cell>)
    requires FrameSize(|params|) <= |s| && FrameSize(|params|) <= |t|
    requires forall i :: 0 <= i < |params| ==> s[ArgSlot(i)] == t[ArgSlot(i)]
    ensures ApplyFun(fun, engine, params, construct, s) == ApplyFun(fun, engine, params, construct, t)
  {
    if AllConvert(engine, params, construct, s) {
      assert AllConvert(engine, params, construct, t);
      assert ArgValues(engine, params, construct, s) == ArgValues(engine, params, construct, t);
    } else {
      assert !AllConvert(engine, params, construct, t);
    }
  }

  /**
   * Dispatch leaves the argument cells as they were, so dispatching again on the
   * resulting stack reports the same outcome and leaves the same cells.  This
   * holds because the callable and the conversion are modelled as deterministic
   * functions; a C++ callable with its own state could answer differently.
   */
  lemma DispatchRepeatable(entry: Entry, params: seq<TypeTag>, construct: Construct, stack: seq<Cell>)
    requires FrameSize(|params|) <= |stack|
    ensures Dispatch(entry, params, construct, Dispatch(entry, params, construct, stack).cells)
         == Dispatch(entry, params, construct, stack)
  {
    var d := Dispatch(entry, params, construct, stack);
    ArgumentsReadOnlyArgumentSlots(entry.fun, entry.engine, params, construct, stack, d.cells);
  }

  // ---------------------------------------------------------------------------
  // The capture globals shimIdToCapture / shimBouncerToCapture
  // ---------------------------------------------------------------------------

  /**
   * The two process-wide slots through which a registration tells an unbound
   * shim its id and its dispatcher.  A dispatcher (RenShimBouncer) is the
   * bounceShim of one signature, so it is identified by that signature's registry.
   */
  class Capture {
    var idToCapture: int
    var bouncerToCapture: Registry?

    /** Both slots cleared: no registration is in progress. */
    predicate Cleared()
      reads this
    {
      idToCapture == -1 && bouncerToCapture == null
    }

    constructor ()
      ensures Cleared()
    {
      idToCapture := -1;
      bouncerToCapture := null;
    }
  }

  // ---------------------------------------------------------------------------
  // FunctionGenerator<R, Ts...>: one signature's table, registration, dispatch
  // ---------------------------------------------------------------------------

  class Registry {
    /** The signature whose static table this is. */
    const sig: Signature
    /** The runtime's Value::construct, used to convert argument cells. */
    const construct: Construct
    /** The append-only table; an entry's id is its index. */
    var table: seq<Entry>

    constructor (sig: Signature, construct: Construct)
      ensures this.sig == sig && this.construct == construct
      ensures table == []
    {
      this.sig := sig;
      this.construct := construct;
      table := [];
    }

    /**
     * bounceShim: dispatches a call of the callable registered under `id`.
     * Writes at most the return cell; never touches the table.
     */
    method Bounce(id: int, stack: array?<Cell>) returns (r: Result<Status>)
      requires 0 <= id < |table|
      requires stack != null ==> FrameSize(|sig.params|) <= stack.Length
      modifies stack
      ensures stack == null ==> r == Err(NullStack)
      ensures stack != null ==>
        Dispatched(r, stack[..]) == Dispatch(table[id], sig.params, construct, old(stack[..]))
    {
      var entry := table[id];  // copied out by value
      if stack == null {
        return Err(NullStack);
      }
      var result := ApplyFun(entry.fun, entry.engine, sig.params, construct, stack[..]);
      match result {
        case Err(f) =>
          r := Err(f);
        case Ok(v) =>
          stack[RETURN_SLOT] := v.cell;
          r := Ok(Success);
      }
    }

    /**
     * The FunctionGenerator constructor: primes the capture slots with the id
     * about to be assigned and this signature's dispatcher, makes the handshake
     * call on a null stack, and on REN_SHIM_INITIALIZED clears the slots and
     * appends the entry.  Any other answer fails before the append and leaves
     * the slots primed.  `fun` is None when the caller relies on the default
     * argument `FunType {nullptr}`.
     */
    method Register(engine: EngineHandle, fun: Option<Callable>, shim: Shim, capture: Capture) returns (r: Result<nat>)
      requires capture.Cleared()
      requires shim.Valid()
      modifies this, shim, capture
      ensures r.Ok? <==> !old(shim.Bound())
      ensures r.Ok? ==>
        r.value == old(|table|) &&
        table == old(table) + [Entry(engine, fun)] &&
        table[r.value] == Entry(engine, fun) &&
        shim.id == r.value && shim.bouncer == this && shim.Valid() &&
        capture.Cleared()
      ensures r.Err? ==>
        table == old(table) &&
        shim.id == old(shim.id) && shim.bouncer == old(shim.bouncer) &&
        capture.idToCapture == old(|table|) && capture.bouncerToCapture == this
      ensures r.Err? ==> r == Err(NullStack)
    {
      var id := |table|;
      capture.idToCapture := id;
      capture.bouncerToCapture := this;

      var status := shim.Call(null, capture);
      if status != Ok(ShimInitialized) {
        // Only a bound shim gets here, and it has failed on the null stack;
        // that failure propagates out before the append.
        return Err(status.failure);
      }

      capture.idToCapture := -1;
      capture.bouncerToCapture := null;

      table := table + [Entry(engine, fun)];
      r := Ok(id);
    }
  }

  // ---------------------------------------------------------------------------
  // REN_STD_FUNCTION: the self-identifying shim
  // ---------------------------------------------------------------------------

  /**
   * The static `id` and `bouncer` of one expansion of REN_STD_FUNCTION.
   * `id == -1` means the shim has not yet learned its identity.
   */
  class Shim {
    var id: int
    var bouncer: Registry?

    predicate Bound()
      reads this
    {
      id != -1
    }

    /** A bound shim names an existing row of its dispatcher's table. */
    ghost predicate Valid()
      reads this, bouncer
    {
      Bound() ==> bouncer != null && 0 <= id < |bouncer.table|
    }

    constructor ()
      ensures !Bound() && bouncer == null && Valid()
    {
      id := -1;
      bouncer := null;
    }

    /**
     * One call of the shim.  Unbound: copy the capture slots and report
     * REN_SHIM_INITIALIZED without dispatching.  Bound: ignore the capture
     * slots and return whatever the dispatcher returns for the stored id.
     */
    method Call(stack: array?<Cell>, capture: Capture) returns (r: Result<Status>)
      requires Valid()
      requires Bound() && stack != null ==> FrameSize(|bouncer.sig.params|) <= stack.Length
      modifies this, stack
      ensures !old(Bound()) ==>
        id == capture.idToCapture && bouncer == capture.bouncerToCapture &&
        r == Ok(ShimInitialized) &&
        (stack != null ==> stack[..] == old(stack[..]))
      ensures old(Bound()) ==>
        id == old(id) && bouncer == old(bouncer) && Valid() &&
        (stack == null ==> r == Err(NullStack)) &&
        (stack != null ==>
          Dispatched(r, stack[..]) == Dispatch(bouncer.table[id], bouncer.sig.params, bouncer.construct, old(stack[..])))
    {
      if id != -1 {
        r := bouncer.Bounce(id, stack);
        return;
      }
      id := capture.idToCapture;
      bouncer := capture.bouncerToCapture;
      r := Ok(ShimInitialized);
    }
  }
}

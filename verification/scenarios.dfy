/**
 * Whole-protocol uses of the extension mechanism: registration followed by
 * interpreter calls through the shim, several registrations of one signature,
 * a reused shim, and registrations under two different signatures.
 */
module ExtensionScenarios {
  import opened Extension

  /** The type tag of an integer cell in the scenarios below. */
  const INT: TypeTag := 1

  /**
   * A hypothetical conversion that accepts a cell exactly when its tag is the
   * declared type and rejects it otherwise.  It stands in for the runtime's
   * Value::construct, whose checking is not part of this model.
   */
  function CheckTag(engine: EngineHandle, t: TypeTag, c: Cell): Option<Value>
  {
    if c.tag == t then Some(Value(c)) else None
  }

  /** The callable `[](Integer a, Integer b) -> Integer { return a + b; }`. */
  function Add(args: seq<Value>): Value
  {
    if |args| == 2 then Value(Cell(INT, args[0].cell.payload + args[1].cell.payload))
    else Value(Cell(INT, 0))
  }

  /**
   * A callable of signature (Int, Int) -> Int that sums its arguments,
   * registered and then called with argument cells 3 and 4, writes 7 into
   * the return cell and reports REN_SUCCESS.
   */
  method SumThroughShim() returns (id: Result<nat>, status: Result<Status>, ret: Cell)
    ensures id == Ok(0)
    ensures status == Ok(Success)
    ensures ret == Cell(INT, 7)
  {
    var capture := new Capture();
    var reg := new Registry(Signature([INT, INT], INT), CheckTag);
    var shim := new Shim();
    id := reg.Register(7, Some(Add), shim, capture);

    var stack := new Cell[FrameSize(2)];
    stack[ArgSlot(0)] := Cell(INT, 3);
    stack[ArgSlot(1)] := Cell(INT, 4);
    ghost var before := stack[..];
    assert AllConvert(7, [INT, INT], CheckTag, before);
    ghost var args := ArgValues(7, [INT, INT], CheckTag, before);
    assert args[0] == Value(Cell(INT, 3)) && args[1] == Value(Cell(INT, 4));

    status := shim.Call(stack, capture);
    ret := stack[RETURN_SLOT];
  }

  /**
   * With a conversion that rejects a mistyped argument cell, the call fails:
   * the return cell is not written and the table is unchanged.
   */
  method MismatchThroughShim() returns (status: Result<Status>, cells: seq<Cell>, size: nat)
    ensures status == Err(ConversionFailed)
    ensures cells == [Cell(0, 0), Cell(INT, 3), Cell(INT + 1, 4)]
    ensures size == 1
  {
    var capture := new Capture();
    var reg := new Registry(Signature([INT, INT], INT), CheckTag);
    var shim := new Shim();
    var id := reg.Register(7, Some(Add), shim, capture);

    var stack := new Cell[FrameSize(2)];
    stack[RETURN_SLOT] := Cell(0, 0);
    stack[ArgSlot(0)] := Cell(INT, 3);
    stack[ArgSlot(1)] := Cell(INT + 1, 4);
    assert !CheckTag(7, INT, stack[ArgSlot(1)]).Some?;

    status := shim.Call(stack, capture);
    cells := stack[..];
    size := |reg.table|;
  }

  /**
   * A registration that relies on the default argument stores an empty
   * callable: calling it with well-typed arguments fails with
   * bad_function_call and leaves every stack cell as it was.
   */
  method EmptyCallableThroughShim() returns (id: Result<nat>, status: Result<Status>, cells: seq<Cell>)
    ensures id == Ok(0)
    ensures status == Err(EmptyCallable)
    ensures cells == [Cell(0, 0), Cell(INT, 3)]
  {
    var capture := new Capture();
    var reg := new Registry(Signature([INT], INT), CheckTag);
    var shim := new Shim();
    id := reg.Register(7, None, shim, capture);

    var stack := new Cell[FrameSize(1)];
    stack[RETURN_SLOT] := Cell(0, 0);
    stack[ArgSlot(0)] := Cell(INT, 3);
    assert AllConvert(7, [INT], CheckTag, stack[..]);

    status := shim.Call(stack, capture);
    cells := stack[..];
  }

  /**
   * Two shims registered one after the other under one signature get
   * consecutive, distinct ids, and each id names its own entry.
   */
  method RegisterTwo(reg: Registry, capture: Capture, s1: Shim, s2: Shim,
                     e1: EngineHandle, f1: Option<Callable>, e2: EngineHandle, f2: Option<Callable>)
    returns (r1: Result<nat>, r2: Result<nat>)
    requires capture.Cleared()
    requires s1 != s2 && !s1.Bound() && !s2.Bound()
    requires s1.Valid() && s2.Valid()
    modifies reg, capture, s1, s2
    ensures r1 == Ok(old(|reg.table|)) && r2 == Ok(old(|reg.table|) + 1)
    ensures reg.table == old(reg.table) + [Entry(e1, f1), Entry(e2, f2)]
    ensures s1.bouncer == reg && s2.bouncer == reg
    ensures s1.id == old(|reg.table|) && s2.id == s1.id + 1
    ensures reg.table[s1.id] == Entry(e1, f1) && reg.table[s2.id] == Entry(e2, f2)
    ensures s1.Valid() && s2.Valid() && capture.Cleared()
  {
    r1 := reg.Register(e1, f1, s1, capture);
    r2 := reg.Register(e2, f2, s2, capture);
  }

  /**
   * Handing an already-bound shim to a second registration fails: the table
   * keeps its single entry, the shim keeps id 0, and the capture slots are
   * left primed with the id that would have been assigned.
   */
  method ReusedShim() returns (first: Result<nat>, second: Result<nat>, size: nat, shimId: int, primed: int)
    ensures first == Ok(0) && second.Err?
    ensures size == 1 && shimId == 0 && primed == 1
  {
    var capture := new Capture();
    var reg := new Registry(Signature([INT], INT), CheckTag);
    var shim := new Shim();
    first := reg.Register(1, Some(Add), shim, capture);
    second := reg.Register(2, Some(Add), shim, capture);
    size := |reg.table|;
    shimId := shim.id;
    primed := capture.idToCapture;
  }

  /** Registering under one signature leaves another signature's table alone. */
  method RegisterUnderOneSignature(a: Registry, b: Registry, capture: Capture, shim: Shim,
                                   engine: EngineHandle, fun: Option<Callable>)
    returns (r: Result<nat>)
    requires a != b && a.sig != b.sig
    requires capture.Cleared() && shim.Valid()
    modifies a, capture, shim
    ensures b.table == old(b.table)
    ensures r.Ok? ==> a.table == old(a.table) + [Entry(engine, fun)]
  {
    r := a.Register(engine, fun, shim, capture);
  }
}

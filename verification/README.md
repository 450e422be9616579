# rencpp extension functions: registration and dispatch

rencpp lets C++ code register a typed callable (a lambda taking `Integer`,
`Block`, … and returning a value) as a native routine of an embedded
Rebol/Red interpreter. The interpreter can only call a closure-free
`int (*)(RenCell * stack)`, so the binding layer uses three parts:

- **`FunctionGenerator<R, Ts...>`** is one class instantiation per signature.
  - Its static, append-only `table` holds `{engine, fun}` entries, and an entry's id is its index.
  - Its constructor registers a callable.
  - Its `bounceShim` dispatches a call.
- **The capture globals `shimIdToCapture` / `shimBouncerToCapture`.** A registration uses them to tell a shim its id and its dispatcher.
- **The `REN_STD_FUNCTION` shim** is a lambda with static `id` and `bouncer` slots.
  - On its first call it copies the capture globals and answers `REN_SHIM_INITIALIZED`.
  - On every later call it forwards `(id, stack)` to its dispatcher.

The Dafny model (module `Extension`, file `extension.dfy`) keeps that shape:

- **`Capture`** holds the two capture slots. A dispatcher (`RenShimBouncer`) is one signature's `bounceShim`, so it is identified by that signature's `Registry` object.
- **`Registry`** models one `FunctionGenerator` instantiation.
  - Its fields are the signature, the runtime's cell-to-value conversion and the table as a `seq<Entry>`.
  - `Register` is the constructor's handshake and append.
  - `Bounce` is `bounceShim`; it copies the entry out of the table by value.
  - Separate signatures are separate `Registry` objects, so their id spaces are separate. In C++ two uses of one signature share one static table, so a client of the model must create exactly one `Registry` per signature.
- **`Shim`** is the two-state shim: `id == -1` means unbound.
- **The pure functions `ConvertArgs`, `ApplyFun` and `Dispatch`** model `applyFun`/`applyFunImpl` and what one dispatch does to the stack's cells. They are specified against two reference definitions:
  - `AllConvert`: every argument cell converts.
  - `ArgValues`: parameter i comes from argument cell i.

The stack is an `array<Cell>`. Its return cell is at `RETURN_SLOT` (0), and argument `i` is at `ArgSlot(i)` (`i + 1`).

The module `ExtensionScenarios` (`scenarios.dfy`) exercises the whole protocol in verified client methods:

- An `(Int, Int) -> Int` sum is called with 3 and 4 and writes 7.
- With a hypothetical conversion that rejects a mistyped cell, the call fails.
- A registration without a callable fails every call with `bad_function_call`.
- Two registrations get consecutive ids.
- A reused shim is rejected.
- Registering under one signature leaves another signature's table unchanged.

Notes on what the code does:

- The arguments are converted by a pack expansion inside a call, so the compiler chooses their order.
- One global mutex guards the tables of all signatures.
- Nothing in `bounceShim` catches an exception. If a conversion throws, or the call of an empty callable does, the exception escapes before the return cell is written. The model reports this as an `Err` outcome with every cell unchanged.
- The constructor's parameter `fun` defaults to an empty `std::function`. Calling an entry registered that way throws `std::bad_function_call` once its arguments are converted. The model represents an empty callable as `None`.
- A failed handshake leaves the constructor before lines 211-212, so the capture slots stay primed.

## Model

| member | source | states |
|---|---|---|
| Extension.ConvertArgs | include/rencpp/extension.hpp:132-141 | converting the arguments succeeds exactly when every argument cell converts to its parameter type, and then parameter i is the value built from argument cell i (positional mapping, arity preserved) |
| Extension.ApplyFun | include/rencpp/extension.hpp:112-151 | the callable is applied once to the positionally converted argument tuple; a failing conversion makes the application fail, and an empty callable fails with bad_function_call once every argument has converted |
| Extension.Dispatch | include/rencpp/extension.hpp:154-183 | a dispatch never answers REN_SHIM_INITIALIZED; when all arguments convert and the callable is not empty, it answers REN_SUCCESS and changes only the return cell, to the cell of the callable's result; otherwise it fails with the conversion or empty-callable failure and leaves every cell as it was |
| Extension.ArgumentsReadOnlyArgumentSlots | include/rencpp/extension.hpp:132-141 | the converted arguments, and so the result, depend only on the argument cells: two stacks that agree on the argument cells give the same result |
| Extension.DispatchRepeatable | include/rencpp/extension.hpp:172-177 | for a deterministic callable and conversion: because dispatch leaves the argument cells unchanged, dispatching again on the resulting stack gives the same outcome and the same cells |
| Extension.Capture.constructor | include/rencpp/extension.hpp:200-201 | the capture slots (declared without initialisers at lines 58-64) start cleared, id -1 and no dispatcher, the state the first registration's asserts require |
| Extension.Registry.constructor | include/rencpp/extension.hpp:236-239 | each signature's table starts empty |
| Extension.Registry.Bounce | include/rencpp/extension.hpp:154-183 | for a valid id, the new stack and the answer are those of Dispatch on the copied-out entry; only the return cell can change; the table is untouched; a null stack fails |
| Extension.Registry.Register | include/rencpp/extension.hpp:186-226 | registration succeeds exactly when the shim was unbound; on success the id is the old table length, the table is the old table plus (engine, fun), the shim is bound to that id and to this signature, and the capture slots are cleared again; on failure the table and the shim are unchanged and the capture slots stay primed with the id that would have been assigned |
| Extension.Shim.constructor | include/rencpp/extension.hpp:264-265 | a fresh shim is unbound (id -1, no dispatcher) |
| Extension.Shim.Call | include/rencpp/extension.hpp:262-271 | an unbound shim copies the capture slots into its own and answers REN_SHIM_INITIALIZED without touching the stack; a bound shim keeps its id and dispatcher, ignores the capture slots and answers what Dispatch answers for its stored id |
| ExtensionScenarios.SumThroughShim | include/rencpp/extension.hpp:172-182 | a summing (Int, Int) -> Int callable registered with id 0 and called with argument cells 3 and 4 answers REN_SUCCESS and writes 7 into the return cell |
| ExtensionScenarios.MismatchThroughShim | include/rencpp/extension.hpp:132-141 | with a hypothetical conversion that rejects a mistyped cell, the call fails with a conversion failure, leaves all stack cells unchanged and leaves the table with its one entry |
| ExtensionScenarios.EmptyCallableThroughShim | include/rencpp/extension.hpp:186-190 | a registration relying on the default empty callable gets id 0, and calling it with well-typed arguments fails with bad_function_call and leaves every stack cell unchanged |
| ExtensionScenarios.RegisterTwo | include/rencpp/extension.hpp:203-219 | two registrations under one signature get consecutive, distinct ids, each naming its own (engine, fun) entry, and leave the capture slots cleared |
| ExtensionScenarios.ReusedShim | include/rencpp/extension.hpp:206-212 | in the model, registering an already-bound shim again fails before the append: one entry, the shim keeps id 0, and the capture slots stay primed with id 1 (in C++ this path is undefined behaviour, see Left out) |
| ExtensionScenarios.RegisterUnderOneSignature | include/rencpp/extension.hpp:236-239 | registering under one signature leaves the table of a registry with a different signature unchanged |

## Left out

- The mutex `extensionTablesMutex` is not modelled, and the model is sequential. Copying an entry out under the lock becomes returning a value.
- The evaluation order of argument conversion is not modelled. Only the positional slot-to-parameter mapping is.
- The template machinery is replaced by a `Signature` value (parameter type tags and a result tag) per `Registry`. This covers `function_traits`, `indices`, `std::decay` and the `makeFunction`/`makeFunction_` overloads.
- `Function::finishInit` and `Engine::runFinder` are not part of this model. They hand the shim to the interpreter's own registration and find the current engine. Neither touches the table or the shim.
- `Value::construct` is a parameter of each `Registry`, not part of this model. A throwing conversion is `None`.
  - `Value::construct` is defined in neither extension.hpp nor value.hpp, so this model leaves open whether a conversion can fail. Construction from a cell does not check the cell's bits (include/rencpp/value.hpp:288-294), and `fromCell_` is `noexcept` (include/rencpp/value.hpp:300, 311-313).
  - The scenarios' `CheckTag` is a hypothetical rejecting conversion, not the runtime's.
- The real offsets behind the `REN_STACK_RETURN` and `REN_STACK_ARGUMENT` macros are not part of this model. The model chooses return cell 0 and argument i at cell i + 1. Its results rely only on the return cell lying outside the argument region.
- A non-empty callable is a total function `seq<Value> -> Value`. Its own side effects and exceptions are not modelled. "Invoked exactly once" is the single application in `ApplyFun`.
- Extension.Registry.Bounce: a null stack is modelled as the failure `NullStack`. In C++, dispatching on a null stack is undefined behaviour, for two reasons:
  - a bound shim reaches `bounceShim` from the handshake while the constructor holds `extensionTablesMutex` (line 198), and `bounceShim` locks that same non-recursive mutex again (line 162), which is a self-deadlock in practice;
  - even without the lock, a zero-arity callable would run (line 132) before the null write at line 177.
- Extension.Registry.Register: its failure branch models an undefined-behaviour path as a failure before the append. The only way the `REN_STD_FUNCTION` shim fails the handshake is by being already bound, and that path is undefined behaviour in C++ (see the previous line). So the `runtime_error` at lines 206-209 cannot be reached with that shim.
- Extension.Registry.Register: ids are unbounded integers. The narrowing of `table.size()` (a `size_t`) into the `int` id is not modelled.
- include/rencpp/value.hpp, include/rencpp/runtime.hpp and the Qt workbench sources are not part of this model.
  - value.hpp is a wrapper over the interpreter's value API.
  - runtime.hpp is an abstract `cancel()` interface.
  - The workbench sources are user-interface code.

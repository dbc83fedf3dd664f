/** `WasmerHost`: the host handle that owns one instance and the three
    integers the bootstrap handshake returned, and the three operations built
    on the shared buffer. Every operation writes its request at the parameter
    buffer offset, calls one export with integer handles and lengths, and
    reads back the response whose length the export returned. */
module Host {
  import opened Rust
  import opened Wasm
  import opened Buffer

  const MEMORY: string := "memory"
  const NEW_RUNTIME: string := "new_runtime"
  const NEW_ASYNC_RUNTIME: string := "new_async_runtime"
  const PARAMETER_BUFFER_PTR: string := "parameter_buffer_ptr"
  const COMPILE_MODULE: string := "compile_module"
  const RUN: string := "run"
  const RUN_MODULE_FUNCTION: string := "run_module_function"
  /** The module name the free compile entry point passes; nothing reads it. */
  const FIXED_MODULE_NAME: string := "mod1"

  /** The host handle. The three integers are the guest's own pointers: the
      host never dereferences them, it only passes them back as arguments. */
  datatype WasmerHost = WasmerHost(
    instance: Instance,
    jsRtPtr: i32,
    asyncRtPtr: i32,
    parameterBufferPtr: i32)

  /** The parameters of a module function call. `rt` is the script runtime
      the guest should use; `request` stands for the remaining fields (the
      function and its arguments), which the host never looks at. */
  datatype RunModuleFunctionParameters = RunModuleFunctionParameters(rt: u32, request: string)

  /** The two library conversions the host treats as black boxes: the binary
      serializer of the parameters (`None` is a serializer error) and the
      UTF-8 validity check of `String::from_utf8`. */
  datatype Codec = Codec(
    serialize: RunModuleFunctionParameters -> Option<seq<byte>>,
    validUtf8: seq<byte> -> bool)

  /** Errors that reach the caller through `?`: an export that is missing,
      and a call into the guest that trapped. */
  datatype HostError = ExportError(name: string) | RuntimeError(name: string)

  /** Why the host panicked: every `unwrap` and every slice index that fails. */
  datatype PanicReason =
    | InstantiationFailed(runtime: string)
    | MissingExport(name: string)
    | Trapped(name: string)
    | NoResult(name: string)
    | ResultNotI32(name: string)
    | SliceOutOfRange
    | CapacityOverflow
    | SerializeFailed
    | InvalidUtf8

  /** The outcome of one operation. `Ok` and `Err` carry the guest memory as
      the operation left it (an error can come after the request was
      already written); after a panic the host is gone. */
  datatype Outcome<T> =
    | Ok(value: T, after: Memory)
    | Err(error: HostError, after: Memory)
    | Panic(reason: PanicReason)

  /** A value obtained through `unwrap`, or the panic it raised. */
  datatype Unwrapped<T> = Value(v: T) | Panicked(reason: PanicReason)

  /** The host with the instance's memory replaced; nothing else moves. */
  function WithMemory(host: WasmerHost, mem: Memory): (h: WasmerHost)
    ensures h.instance.memory == mem
    ensures h.jsRtPtr == host.jsRtPtr && h.asyncRtPtr == host.asyncRtPtr
    ensures h.parameterBufferPtr == host.parameterBufferPtr
  {
    host.(instance := host.instance.(memory := mem))
  }

  // ---------------------------------------------------------------------
  // Reading a call's result

  /** `results[0].i32().unwrap()`: indexing panics on an empty result list,
      `unwrap` panics on a value of another type. */
  function FirstI32(name: string, results: seq<Val>): (r: Unwrapped<i32>)
    ensures r.Value? <==> |results| > 0 && results[0].I32?
    ensures r.Value? ==> results[0] == I32(r.v)
    ensures r.Panicked? ==> r.reason in {NoResult(name), ResultNotI32(name)}
  {
    if |results| == 0 then Panicked(NoResult(name))
    else match results[0]
      case I32(v) => Value(v)
      case NonI32 => Panicked(ResultNotI32(name))
  }

  /** The export `name`, called with `args` on `mem`, returned an `i32`
      first. */
  predicate Answers(inst: Instance, name: string, args: seq<Val>, mem: Memory) {
    var call := inst.guest(name, args, mem);
    && name in inst.functions
    && call.Returned?
    && |call.results| > 0
    && call.results[0].I32?
  }

  /** The `i32` that call returned. */
  function Answer(inst: Instance, name: string, args: seq<Val>, mem: Memory): i32
    requires Answers(inst, name, args, mem)
  {
    inst.guest(name, args, mem).results[0].i
  }

  /** The memory that call left behind. */
  function AnswerMemory(inst: Instance, name: string, args: seq<Val>, mem: Memory): Memory
    requires Answers(inst, name, args, mem)
  {
    inst.guest(name, args, mem).after
  }

  /** The call answered with a length `n` whose window at `ptr` fits in the
      memory the call left: the response is there to be read. */
  predicate Responds(inst: Instance, name: string, args: seq<Val>, staged: Memory, ptr: i32) {
    && Answers(inst, name, args, staged)
    && Fits(ptr, Answer(inst, name, args, staged), |AnswerMemory(inst, name, args, staged)|)
  }

  // ---------------------------------------------------------------------
  // Bootstrap

  /** One handshake call: `get_function(name).unwrap().call(&[]).unwrap()[0]
      .i32().unwrap()`, giving the handle and the memory after the call. */
  function CallForHandle(inst: Instance, name: string, mem: Memory): (r: Unwrapped<(i32, Memory)>)
    ensures r.Value? <==> Answers(inst, name, [], mem)
    ensures r.Value? ==> r.v == (Answer(inst, name, [], mem), AnswerMemory(inst, name, [], mem))
    ensures name !in inst.functions ==> r == Panicked(MissingExport(name))
  {
    if name !in inst.functions then Panicked(MissingExport(name))
    else match inst.guest(name, [], mem)
      case Trap(_) => Panicked(Trapped(name))
      case Returned(results, after) =>
        match FirstI32(name, results)
        case Panicked(p) => Panicked(p)
        case Value(v) => Value((v, after))
  }

  /** The three handshake calls all answer, each on the memory the previous
      one left. */
  predicate HandshakeCompletes(inst: Instance) {
    && Answers(inst, NEW_RUNTIME, [], inst.memory)
    && var m1 := AnswerMemory(inst, NEW_RUNTIME, [], inst.memory);
       && Answers(inst, NEW_ASYNC_RUNTIME, [], m1)
       && Answers(inst, PARAMETER_BUFFER_PTR, [], AnswerMemory(inst, NEW_ASYNC_RUNTIME, [], m1))
  }

  /** `host` holds exactly what the handshake on `inst` returned: the script
      runtime, the async runtime and the buffer offset, in that order, and
      the instance as the last call left it. */
  ghost predicate BootedFrom(inst: Instance, host: WasmerHost)
    requires HandshakeCompletes(inst)
  {
    var m1 := AnswerMemory(inst, NEW_RUNTIME, [], inst.memory);
    var m2 := AnswerMemory(inst, NEW_ASYNC_RUNTIME, [], m1);
    && host.jsRtPtr == Answer(inst, NEW_RUNTIME, [], inst.memory)
    && host.asyncRtPtr == Answer(inst, NEW_ASYNC_RUNTIME, [], m1)
    && host.parameterBufferPtr == Answer(inst, PARAMETER_BUFFER_PTR, [], m2)
    && host.instance == inst.(memory := AnswerMemory(inst, PARAMETER_BUFFER_PTR, [], m2))
  }

  /** The outcome of `new_wasi_dev`. */
  datatype Boot = Booted(host: WasmerHost) | BootPanic(reason: PanicReason)

  /** `new_wasi_dev`: instantiate the module named `runtime` (registry lookup,
      store and import assembly are the `instantiate` parameter; `None` is the
      unwrap of their failure), then run the three-call handshake. Every
      failure is a panic: there is no partially built host. */
  function NewWasiDev(runtime: string, instantiate: string -> Option<Instance>): (r: Boot)
    ensures instantiate(runtime).None? ==> r == BootPanic(InstantiationFailed(runtime))
    ensures r.Booted? <==> instantiate(runtime).Some? && HandshakeCompletes(instantiate(runtime).value)
    ensures r.Booted? ==> BootedFrom(instantiate(runtime).value, r.host)
  {
    match instantiate(runtime)
    case None => BootPanic(InstantiationFailed(runtime))
    case Some(inst) =>
      match CallForHandle(inst, NEW_RUNTIME, inst.memory)
      case Panicked(p) => BootPanic(p)
      case Value((jsRtPtr, m1)) =>
        match CallForHandle(inst, NEW_ASYNC_RUNTIME, m1)
        case Panicked(p) => BootPanic(p)
        case Value((asyncRtPtr, m2)) =>
          match CallForHandle(inst, PARAMETER_BUFFER_PTR, m2)
          case Panicked(p) => BootPanic(p)
          case Value((parameterBufferPtr, m3)) =>
            Booted(WasmerHost(inst.(memory := m3), jsRtPtr, asyncRtPtr, parameterBufferPtr))
  }

  // ---------------------------------------------------------------------
  // The operations

  /** The arguments of `compile_module` and of `run`: the async runtime, the
      script runtime, and the request length cast to `i32`. */
  function EngineArgs(host: WasmerHost, len: nat): (args: seq<Val>)
    ensures |args| == 3
    ensures args[0] == I32(host.asyncRtPtr) && args[1] == I32(host.jsRtPtr)
    ensures args[2].I32? && (args[2].i - len) % U32_MODULUS == 0
    ensures len <= I32_MAX ==> args[2] == I32(len)
  {
    [I32(host.asyncRtPtr), I32(host.jsRtPtr), I32(LenAsI32(len))]
  }

  /** `compile_to_bytecode`: stage `code`, call `compile_module`, and copy out
      the `bytecode_size` bytes it reports. `moduleName` is not read. A missing
      export and a trap propagate as errors; everything else that fails
      panics. A negative size is caught by `Vec::with_capacity` before any
      slicing. */
  function CompileToBytecode(host: WasmerHost, moduleName: string, code: seq<byte>): (r: Outcome<seq<byte>>)
    ensures !host.instance.exportsMemory ==> r == Err(ExportError(MEMORY), host.instance.memory)
    ensures (host.instance.exportsMemory && !Fits(host.parameterBufferPtr, |code|, |host.instance.memory|))
              ==> r == Panic(SliceOutOfRange)
    ensures r.Err? ==> r.error in {ExportError(MEMORY), ExportError(COMPILE_MODULE), RuntimeError(COMPILE_MODULE)}
    ensures (r.Err? && r.error == ExportError(COMPILE_MODULE))
              ==> Staged(host.instance.memory, host.parameterBufferPtr, code, r.after)
    ensures r.Ok? <==>
              && host.instance.exportsMemory
              && Fits(host.parameterBufferPtr, |code|, |host.instance.memory|)
              && Responds(host.instance, COMPILE_MODULE, EngineArgs(host, |code|),
                          SliceToBuffer(host.instance.memory, host.parameterBufferPtr, code).value,
                          host.parameterBufferPtr)
    ensures r.Ok? ==>
              var staged := SliceToBuffer(host.instance.memory, host.parameterBufferPtr, code).value;
              && Staged(host.instance.memory, host.parameterBufferPtr, code, staged)
              && r.after == AnswerMemory(host.instance, COMPILE_MODULE, EngineArgs(host, |code|), staged)
              && |r.value| == Answer(host.instance, COMPILE_MODULE, EngineArgs(host, |code|), staged)
              && Holds(r.after, host.parameterBufferPtr, r.value)
    ensures r == Panic(CapacityOverflow) ==>
              var staged := SliceToBuffer(host.instance.memory, host.parameterBufferPtr, code).value;
              Answers(host.instance, COMPILE_MODULE, EngineArgs(host, |code|), staged)
              && Answer(host.instance, COMPILE_MODULE, EngineArgs(host, |code|), staged) < 0
    // Once the memory export exists and the source is staged, each later step
    // decides the outcome as the source does:
    ensures (host.instance.exportsMemory && Fits(host.parameterBufferPtr, |code|, |host.instance.memory|)) ==>
              var staged := SliceToBuffer(host.instance.memory, host.parameterBufferPtr, code).value;
              var call := host.instance.guest(COMPILE_MODULE, EngineArgs(host, |code|), staged);
              var found := COMPILE_MODULE in host.instance.functions;
              // the `?` on the export lookup
              && (!found ==> r == Err(ExportError(COMPILE_MODULE), staged))
              // the `?` on the call
              && (found && call.Trap? ==> r == Err(RuntimeError(COMPILE_MODULE), call.after))
              // `[0].i32().unwrap()`
              && (found && call.Returned? && |call.results| == 0 ==> r == Panic(NoResult(COMPILE_MODULE)))
              && ((found && call.Returned? && 0 < |call.results| && !call.results[0].I32?)
                    ==> r == Panic(ResultNotI32(COMPILE_MODULE)))
              // `Vec::with_capacity(bytecode_size as usize)`, then the slice of `data`
              && (Answers(host.instance, COMPILE_MODULE, EngineArgs(host, |code|), staged) ==>
                    var size := Answer(host.instance, COMPILE_MODULE, EngineArgs(host, |code|), staged);
                    && (size < 0 ==> r == Panic(CapacityOverflow))
                    && (0 <= size && !Fits(host.parameterBufferPtr, size, |call.after|) ==> r == Panic(SliceOutOfRange)))
  {
    var inst := host.instance;
    var ptr := host.parameterBufferPtr;
    if !inst.exportsMemory then Err(ExportError(MEMORY), inst.memory)
    else match SliceToBuffer(inst.memory, ptr, code)
      case None => Panic(SliceOutOfRange)
      case Some(staged) =>
        if COMPILE_MODULE !in inst.functions then Err(ExportError(COMPILE_MODULE), staged)
        else match inst.guest(COMPILE_MODULE, EngineArgs(host, |code|), staged)
          case Trap(after) => Err(RuntimeError(COMPILE_MODULE), after)
          case Returned(results, after) =>
            match FirstI32(COMPILE_MODULE, results)
            case Panicked(p) => Panic(p)
            case Value(size) =>
              if I32AsUsize(size) > ISIZE_MAX then Panic(CapacityOverflow)
              else match Window(ptr, I32AsUsize(size), |after|)
                case None => Panic(SliceOutOfRange)
                case Some((lo, hi)) => Ok(after[lo..hi], after)
  }

  /** `eval`: stage `js` and call `run`. Every failure unwraps, so `eval`
      never returns an error; the returned integer is checked to be an `i32`
      and then dropped. Its effect is the memory the call leaves, which holds
      the script engine's state for the next call. Unlike compilation, both
      exports are looked up before anything is written. */
  function Eval(host: WasmerHost, js: seq<byte>): (r: Outcome<()>)
    ensures !r.Err?
    ensures !host.instance.exportsMemory ==> r == Panic(MissingExport(MEMORY))
    ensures host.instance.exportsMemory && RUN !in host.instance.functions ==> r == Panic(MissingExport(RUN))
    ensures (&& host.instance.exportsMemory && RUN in host.instance.functions
             && !Fits(host.parameterBufferPtr, |js|, |host.instance.memory|))
              ==> r == Panic(SliceOutOfRange)
    ensures r.Ok? <==>
              && host.instance.exportsMemory
              && Fits(host.parameterBufferPtr, |js|, |host.instance.memory|)
              && Answers(host.instance, RUN, EngineArgs(host, |js|),
                         SliceToBuffer(host.instance.memory, host.parameterBufferPtr, js).value)
    ensures r.Ok? ==>
              var staged := SliceToBuffer(host.instance.memory, host.parameterBufferPtr, js).value;
              && Staged(host.instance.memory, host.parameterBufferPtr, js, staged)
              && r.after == AnswerMemory(host.instance, RUN, EngineArgs(host, |js|), staged)
  {
    var inst := host.instance;
    if !inst.exportsMemory then Panic(MissingExport(MEMORY))
    else if RUN !in inst.functions then Panic(MissingExport(RUN))
    else match SliceToBuffer(inst.memory, host.parameterBufferPtr, js)
      case None => Panic(SliceOutOfRange)
      case Some(staged) =>
        match inst.guest(RUN, EngineArgs(host, |js|), staged)
        case Trap(_) => Panic(Trapped(RUN))
        case Returned(results, after) =>
          match FirstI32(RUN, results)
          case Panicked(p) => Panic(p)
          case Value(_) => Ok((), after)
  }

  /** `parameters.set_rt(js_rt_ptr as u32)`: the caller's runtime field is
      overwritten with the host's script runtime; the rest is kept. */
  function WithRuntime(params: RunModuleFunctionParameters, host: WasmerHost): (p: RunModuleFunctionParameters)
    ensures p.request == params.request
    ensures (p.rt - host.jsRtPtr) % U32_MODULUS == 0
    ensures 0 <= host.jsRtPtr ==> p.rt == host.jsRtPtr
  {
    params.(rt := I32AsU32(host.jsRtPtr))
  }

  /** The arguments of `run_module_function`: the async runtime and the
      length of the serialized request. */
  function DispatchArgs(host: WasmerHost, len: nat): (args: seq<Val>)
    ensures |args| == 2 && args[0] == I32(host.asyncRtPtr)
    ensures args[1].I32? && (args[1].i - len) % U32_MODULUS == 0
    ensures len <= I32_MAX ==> args[1] == I32(len)
  {
    [I32(host.asyncRtPtr), I32(LenAsI32(len))]
  }

  /** `run_module_function`: point the parameters at the host's script
      runtime, serialize and stage them, call `run_module_function`, and read
      back as many bytes as it reports, which must be UTF-8. Only the trap of
      the call propagates as an error; the rest panics. The parameters are
      taken by `&mut`, so the result also carries them as the caller sees
      them afterwards. */
  function RunModuleFunction(host: WasmerHost, codec: Codec, params: RunModuleFunctionParameters): (r: (Outcome<seq<byte>>, RunModuleFunctionParameters))
    ensures !host.instance.exportsMemory ==> r.0 == Panic(MissingExport(MEMORY))
    ensures (host.instance.exportsMemory && RUN_MODULE_FUNCTION !in host.instance.functions)
              ==> r.0 == Panic(MissingExport(RUN_MODULE_FUNCTION))
    ensures r.0.Err? ==> r.0.error == RuntimeError(RUN_MODULE_FUNCTION)
    ensures r.0.Ok? <==>
              && host.instance.exportsMemory
              && codec.serialize(WithRuntime(params, host)).Some?
              && var request := codec.serialize(WithRuntime(params, host)).value;
                 && Fits(host.parameterBufferPtr, |request|, |host.instance.memory|)
                 && var staged := SliceToBuffer(host.instance.memory, host.parameterBufferPtr, request).value;
                    && Responds(host.instance, RUN_MODULE_FUNCTION, DispatchArgs(host, |request|), staged,
                                host.parameterBufferPtr)
                    && codec.validUtf8(
                         AnswerMemory(host.instance, RUN_MODULE_FUNCTION, DispatchArgs(host, |request|), staged)
                           [host.parameterBufferPtr ..
                            host.parameterBufferPtr
                              + Answer(host.instance, RUN_MODULE_FUNCTION, DispatchArgs(host, |request|), staged)])
    ensures r.0.Ok? ==>
              var request := codec.serialize(WithRuntime(params, host)).value;
              var staged := SliceToBuffer(host.instance.memory, host.parameterBufferPtr, request).value;
              && Staged(host.instance.memory, host.parameterBufferPtr, request, staged)
              && r.0.after == AnswerMemory(host.instance, RUN_MODULE_FUNCTION, DispatchArgs(host, |request|), staged)
              && |r.0.value| == Answer(host.instance, RUN_MODULE_FUNCTION, DispatchArgs(host, |request|), staged)
              && Holds(r.0.after, host.parameterBufferPtr, r.0.value)
              && codec.validUtf8(r.0.value)
    // `&mut parameters`: the caller sees `set_rt` once both lookups passed
    ensures (host.instance.exportsMemory && RUN_MODULE_FUNCTION in host.instance.functions)
              ==> r.1 == WithRuntime(params, host)
    ensures !(host.instance.exportsMemory && RUN_MODULE_FUNCTION in host.instance.functions) ==> r.1 == params
    // the steps after the lookups, as the source takes them
    ensures (host.instance.exportsMemory && RUN_MODULE_FUNCTION in host.instance.functions) ==>
              && (codec.serialize(WithRuntime(params, host)).None? ==> r.0 == Panic(SerializeFailed))
              && (codec.serialize(WithRuntime(params, host)).Some? ==>
                    var request := codec.serialize(WithRuntime(params, host)).value;
                    && (!Fits(host.parameterBufferPtr, |request|, |host.instance.memory|) ==> r.0 == Panic(SliceOutOfRange))
                    && (Fits(host.parameterBufferPtr, |request|, |host.instance.memory|) ==>
                          var staged := SliceToBuffer(host.instance.memory, host.parameterBufferPtr, request).value;
                          var args := DispatchArgs(host, |request|);
                          var call := host.instance.guest(RUN_MODULE_FUNCTION, args, staged);
                          var ptr := host.parameterBufferPtr;
                          // the `?` on the call
                          && (call.Trap? ==> r.0 == Err(RuntimeError(RUN_MODULE_FUNCTION), call.after))
                          // `[0].i32().unwrap()`
                          && (call.Returned? && |call.results| == 0 ==> r.0 == Panic(NoResult(RUN_MODULE_FUNCTION)))
                          && ((call.Returned? && 0 < |call.results| && !call.results[0].I32?)
                                ==> r.0 == Panic(ResultNotI32(RUN_MODULE_FUNCTION)))
                          // `read_returned_value` of the reported length
                          && ((Answers(host.instance, RUN_MODULE_FUNCTION, args, staged)
                               && !Responds(host.instance, RUN_MODULE_FUNCTION, args, staged, ptr))
                                ==> r.0 == Panic(SliceOutOfRange))
                          // `String::from_utf8(..).unwrap()`
                          && ((Responds(host.instance, RUN_MODULE_FUNCTION, args, staged, ptr)
                               && !codec.validUtf8(
                                     call.after[ptr .. ptr + Answer(host.instance, RUN_MODULE_FUNCTION, args, staged)]))
                                ==> r.0 == Panic(InvalidUtf8))))
  {
    var inst := host.instance;
    var ptr := host.parameterBufferPtr;
    if !inst.exportsMemory then (Panic(MissingExport(MEMORY)), params)
    else if RUN_MODULE_FUNCTION !in inst.functions then (Panic(MissingExport(RUN_MODULE_FUNCTION)), params)
    else
      var updated := WithRuntime(params, host);
      (match codec.serialize(updated)
      case None => Panic(SerializeFailed)
      case Some(request) =>
        match SliceToBuffer(inst.memory, ptr, request)
        case None => Panic(SliceOutOfRange)
        case Some(staged) =>
          match inst.guest(RUN_MODULE_FUNCTION, DispatchArgs(host, |request|), staged)
          case Trap(after) => Err(RuntimeError(RUN_MODULE_FUNCTION), after)
          case Returned(results, after) =>
            match FirstI32(RUN_MODULE_FUNCTION, results)
            case Panicked(p) => Panic(p)
            case Value(res) =>
              match ReadReturnedValue(after, ptr, res)
              case None => Panic(SliceOutOfRange)
              case Some(text) => if codec.validUtf8(text) then Ok(text, after) else Panic(InvalidUtf8),
       updated)
  }

  /** The free `compile_to_bytecode`: bootstrap a fresh instance of `runtime`
      and compile once on it under the fixed module name. */
  function CompileOnFreshInstance(runtime: string, code: seq<byte>, instantiate: string -> Option<Instance>)
    : (r: Outcome<seq<byte>>)
    ensures NewWasiDev(runtime, instantiate).BootPanic? ==> r == Panic(NewWasiDev(runtime, instantiate).reason)
    ensures instantiate(runtime).None? ==> r == Panic(InstantiationFailed(runtime))
    ensures NewWasiDev(runtime, instantiate).Booted? ==>
              forall name :: r == CompileToBytecode(NewWasiDev(runtime, instantiate).host, name, code)
  {
    match NewWasiDev(runtime, instantiate)
    case BootPanic(p) => Panic(p)
    case Booted(host) => CompileToBytecode(host, FIXED_MODULE_NAME, code)
  }
}

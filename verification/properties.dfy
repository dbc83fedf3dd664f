/** Properties that relate several calls of the host: what the operations do
    not depend on, the round trip through an echoing guest, and the handles
    surviving any sequence of operations. */
module Properties {
  import opened Rust
  import opened Wasm
  import opened Buffer
  import opened Host
  import opened Session

  /** Compilation never reads its module-name argument. */
  lemma CompileIgnoresModuleName(host: WasmerHost, a: string, b: string, code: seq<byte>)
    ensures CompileToBytecode(host, a, code) == CompileToBytecode(host, b, code)
  {
  }

  /** Whatever runtime the caller put in the parameters, the call is the same:
      the host overwrites it with its own script runtime before serializing. */
  lemma RunModuleFunctionIgnoresCallerRuntime(host: WasmerHost, codec: Codec,
                                              params: RunModuleFunctionParameters, rt: u32)
    ensures RunModuleFunction(host, codec, params).0 == RunModuleFunction(host, codec, params.(rt := rt)).0
    ensures WithRuntime(params, host) == WithRuntime(params.(rt := rt), host)
  {
  }

  /** A guest whose `compile_module` leaves the memory alone and reports the
      request's own length hands the source straight back: what the host
      reads is exactly what it wrote. */
  lemma EchoCompileRoundTrip(host: WasmerHost, name: string, code: seq<byte>)
    requires host.instance.exportsMemory
    requires COMPILE_MODULE in host.instance.functions
    requires Fits(host.parameterBufferPtr, |code|, |host.instance.memory|)
    requires |code| <= I32_MAX
    requires var staged := SliceToBuffer(host.instance.memory, host.parameterBufferPtr, code).value;
             host.instance.guest(COMPILE_MODULE, EngineArgs(host, |code|), staged) == Returned([I32(|code|)], staged)
    ensures CompileToBytecode(host, name, code)
            == Ok(code, SliceToBuffer(host.instance.memory, host.parameterBufferPtr, code).value)
  {
  }

  /** The same round trip for a module function call: a guest that echoes the
      serialized request makes the host return those very bytes, provided
      they are UTF-8. */
  lemma EchoRunModuleFunctionRoundTrip(host: WasmerHost, codec: Codec,
                                       params: RunModuleFunctionParameters)
    requires host.instance.exportsMemory
    requires RUN_MODULE_FUNCTION in host.instance.functions
    requires codec.serialize(WithRuntime(params, host)).Some?
    requires var request := codec.serialize(WithRuntime(params, host)).value;
             && Fits(host.parameterBufferPtr, |request|, |host.instance.memory|)
             && |request| <= I32_MAX
             && codec.validUtf8(request)
             && var staged := SliceToBuffer(host.instance.memory, host.parameterBufferPtr, request).value;
                host.instance.guest(RUN_MODULE_FUNCTION, DispatchArgs(host, |request|), staged)
                  == Returned([I32(|request|)], staged)
    ensures var request := codec.serialize(WithRuntime(params, host)).value;
            RunModuleFunction(host, codec, params).0
            == Ok(request, SliceToBuffer(host.instance.memory, host.parameterBufferPtr, request).value)
  {
  }

  /** After bootstrap, however many operations run and however they end, the
      host still holds the three integers the handshake returned. */
  lemma BootedHandlesPersist(runtime: string, instantiate: string -> Option<Instance>,
                             codec: Codec, reqs: seq<Request>)
    requires NewWasiDev(runtime, instantiate).Booted?
    ensures var inst := instantiate(runtime).value;
            var host := RunSession(NewWasiDev(runtime, instantiate).host, codec, reqs).0;
            var m1 := AnswerMemory(inst, NEW_RUNTIME, [], inst.memory);
            var m2 := AnswerMemory(inst, NEW_ASYNC_RUNTIME, [], m1);
            && host.jsRtPtr == Answer(inst, NEW_RUNTIME, [], inst.memory)
            && host.asyncRtPtr == Answer(inst, NEW_ASYNC_RUNTIME, [], m1)
            && host.parameterBufferPtr == Answer(inst, PARAMETER_BUFFER_PTR, [], m2)
            && host.instance.functions == inst.functions
            && host.instance.exportsMemory == inst.exportsMemory
  {
  }
}

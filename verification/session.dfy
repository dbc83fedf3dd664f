/** One host handle used for a sequence of operations, one at a time: each
    operation writes, calls and reads before the next begins, and the next
    starts from the memory the previous one left. A panic ends the sequence. */
module Session {
  import opened Rust
  import opened Wasm
  import opened Buffer
  import opened Host

  /** The operations of the host handle. */
  datatype Request =
    | Compile(moduleName: string, code: seq<byte>)
    | Evaluate(js: seq<byte>)
    | CallModuleFunction(params: RunModuleFunctionParameters)

  /** What each operation hands back on success. */
  datatype Reply = Bytecode(bytes: seq<byte>) | Evaluated | Text(text: seq<byte>)

  /** An operation's outcome with its success value wrapped as a reply. */
  function Lift<T>(o: Outcome<T>, wrap: T -> Reply): (r: Outcome<Reply>)
    ensures r.Ok? <==> o.Ok?
    ensures r.Ok? ==> r.value == wrap(o.value)
    ensures !r.Panic? ==> !o.Panic? && r.after == o.after
    ensures r.Err? ==> o.Err? && r.error == o.error
    ensures r.Panic? ==> o.Panic? && r.reason == o.reason
  {
    match o
    case Ok(v, after) => Ok(wrap(v), after)
    case Err(e, after) => Err(e, after)
    case Panic(p) => Panic(p)
  }

  /** Performs one request on `host`. */
  function Dispatch(host: WasmerHost, codec: Codec, req: Request): (r: Outcome<Reply>)
    ensures r.Ok? && req.Compile? ==> r.value.Bytecode?
    ensures r.Ok? && req.Evaluate? ==> r.value.Evaluated?
    ensures r.Ok? && req.CallModuleFunction? ==> r.value.Text?
    ensures req.Evaluate? ==> !r.Err?
  {
    match req
    case Compile(name, code) => Lift(CompileToBytecode(host, name, code), bytes => Bytecode(bytes))
    case Evaluate(js) => Lift(Eval(host, js), _ => Evaluated)
    case CallModuleFunction(params) => Lift(RunModuleFunction(host, codec, params).0, text => Text(text))
  }

  /** The memory request `i` starts from: the initial one for the first,
      otherwise the one the previous request left. */
  function MemoryBefore(initial: Memory, outs: seq<Outcome<Reply>>, i: nat): Memory
    requires i <= |outs|
    requires 0 < i ==> !outs[i - 1].Panic?
  {
    if i == 0 then initial else outs[i - 1].after
  }

  /** Performs `reqs` in order on one host. An error is returned to the caller
      and the host stays usable with the memory the failed call left; a panic
      stops everything. The result is the host afterwards and one outcome per
      request performed. */
  function RunSession(host: WasmerHost, codec: Codec, reqs: seq<Request>): (r: (WasmerHost, seq<Outcome<Reply>>))
    decreases |reqs|
    ensures r.0.jsRtPtr == host.jsRtPtr
    ensures r.0.asyncRtPtr == host.asyncRtPtr
    ensures r.0.parameterBufferPtr == host.parameterBufferPtr
    ensures r.0.instance == host.instance.(memory := r.0.instance.memory)
    ensures |r.1| <= |reqs|
    ensures 0 < |reqs| ==> 0 < |r.1| && r.1[0] == Dispatch(host, codec, reqs[0])
    ensures forall i :: 0 <= i < |r.1| - 1 ==> !r.1[i].Panic?
    ensures forall i :: 0 <= i < |r.1| ==>
              r.1[i] == Dispatch(WithMemory(host, MemoryBefore(host.instance.memory, r.1, i)), codec, reqs[i])
    ensures |r.1| < |reqs| ==> 0 < |r.1| && r.1[|r.1| - 1].Panic?
    ensures 0 < |r.1| && !r.1[|r.1| - 1].Panic? ==> r.0.instance.memory == r.1[|r.1| - 1].after
    ensures |r.1| == 0 ==> r.0.instance.memory == host.instance.memory
  {
    if |reqs| == 0 then (host, [])
    else
      var out := Dispatch(host, codec, reqs[0]);
      if out.Panic? then (host, [out])
      else
        var rest := RunSession(WithMemory(host, out.after), codec, reqs[1..]);
        (rest.0, [out] + rest.1)
  }
}

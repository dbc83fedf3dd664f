# Shared-buffer marshalling between a wasmer host and its guest module

This project models the core of `wasmer-host`. A `WasmerHost` owns one wasm
instance. It talks to the instance only through one window of the guest's
linear memory, at the offset `parameter_buffer_ptr`. Each operation does
three things. It writes a request into the window. It calls one named guest
export with integer handles and lengths. It reads back as many bytes as the
export's integer result says.

The model is functional:

- Linear memory is an immutable `seq<bv8>` of at most 4 GiB (the wasm32
  limit).
- The guest is a function value stored in the instance:
  `(export name, arguments, memory) -> Trap(memory') | Returned(values, memory')`.
  The model treats that memory as the only state the guest carries from one
  call to the next (see "## Left out").
- Rust's integer casts and slice bounds checks are written out explicitly.
  A slice index that fails, and every `unwrap` that fails, becomes a
  `Panic` outcome. What `?` propagates becomes an `Err` outcome. An `Err`
  carries the memory, because the request may already have been written.

Modules, in dependency order:

- `Rust` (`rust.dfy`): `i32`, `u32` and `usize` on a 64-bit host, the `as`
  casts, and overflow-checked and wrapping addition.
- `Wasm` (`wasm.dfy`): memory, values, guest results and the instance.
- `Buffer` (`buffer.dfy`): `slice_to_buffer`, `read_returned_value` and the
  window arithmetic they share.
- `Host` (`host.dfy`): the handle record, the bootstrap handshake,
  `compile_to_bytecode`, `eval`, `run_module_function`, and the free
  `compile_to_bytecode`.
- `Session` (`session.dfy`): one handle used for a sequence of operations.
- `Properties` (`properties.dfy`): lemmas that relate several calls.

Points of the code the model keeps as they are:

- The argument lists at `wasmer_host.rs:115-118` and `:135-137` lack a comma
  after the first `Val::I32(self.async_rt_ptr)`, so the file does not compile
  as written. The model uses the evident lists: `(async, js, len)` for `run`
  and `(async, len)` for `run_module_function`.
- Most failures panic. `compile_to_bytecode` returns an error only for a
  missing export or a trap. `eval` never returns an error: a missing export
  or a trap panics. `run_module_function` returns an error only for the trap
  of its guest call.
- Every bootstrap failure panics, including an unknown runtime name. No
  partly built host exists.
- A payload that does not fit after the buffer offset panics
  (`SliceOutOfRange`) and writes nothing.

## Model

| member | source | states |
|---|---|---|
| `Rust.I32AsUsize` | wasmer-host/src/wasmer_host.rs:66 | `ptr as usize`: a non-negative i32 keeps its value; a negative one sign-extends to exactly `2^64 + x`, above `isize::MAX` |
| `Rust.LenAsI32` | wasmer-host/src/wasmer_host.rs:91 | `source.len() as i32` keeps lengths up to 2^31-1 and otherwise keeps only the low 32 bits |
| `Rust.I32AsU32` | wasmer-host/src/wasmer_host.rs:132 | `js_rt_ptr as u32` reads the same 32 bits as unsigned |
| `Rust.CheckedAdd` | wasmer-host/src/wasmer_host.rs:66 | the end of the window `ptr as usize + len` is computed with overflow checks: it exists iff the sum stays below 2^64 |
| `Rust.WrappingAdd` | wasmer-host/src/wasmer_host.rs:72 | release-mode `usize` addition is addition mod 2^64 |
| `Buffer.Window` | wasmer-host/src/wasmer_host.rs:66 | the slice `[ptr as usize .. ptr as usize + len]` succeeds exactly when `0 <= ptr` and `ptr + len` is at most the memory length, and then spans `[ptr, ptr+len)` |
| `Buffer.WrappingWindowAgrees` | wasmer-host/src/wasmer_host.rs:72 | with a wrapping end instead of an overflow panic, the slice succeeds in exactly the same cases |
| `Buffer.SliceToBuffer` | wasmer-host/src/wasmer_host.rs:71-73 | the write succeeds iff the window fits; then the window holds the source, every other byte is unchanged, and the length is unchanged |
| `Buffer.StagedUnique` | wasmer-host/src/wasmer_host.rs:71-73 | the window contents plus the frame condition fix the written memory completely |
| `Buffer.CopyFromSlice` | wasmer-host/src/wasmer_host.rs:72 | the byte-by-byte `copy_from_slice` gives the window contents and frame condition, and agrees with `SliceToBuffer` |
| `Buffer.ReadReturnedValue` | wasmer-host/src/wasmer_host.rs:65-68 | the read succeeds iff `0 <= ptr`, `0 <= len` and `ptr + len` is at most the memory length; then it returns exactly `len` bytes, equal to `mem[ptr..ptr+len]` |
| `Buffer.ReadAfterWrite` | wasmer-host/src/wasmer_host.rs:65-73 | reading as many bytes as `source` holds right after writing `source` returns `source` |
| `Buffer.ReadOutsideWrite` | wasmer-host/src/wasmer_host.rs:71-73 | a read of a window disjoint from the written one returns what it returned before the write |
| `Host.FirstI32` | wasmer-host/src/wasmer_host.rs:92-94 | `[0].i32().unwrap()` yields a value iff the first result exists and is an i32; otherwise it panics with one of the two reasons |
| `Host.CallForHandle` | wasmer-host/src/wasmer_host.rs:36-43 | one handshake call succeeds iff the export exists and answers an i32 first; a missing export panics |
| `Host.NewWasiDev` | wasmer-host/src/wasmer_host.rs:31-50 | bootstrap succeeds iff instantiation succeeds and the three handshake calls answer, each on the memory the previous one left; the handle then holds the script runtime, async runtime and buffer offset they returned; a failed instantiation panics |
| `Host.EngineArgs` | wasmer-host/src/wasmer_host.rs:88-92 | `compile_module` and `run` get `(async_rt_ptr, js_rt_ptr, len)` in that order, where `len` is the length cast to `i32` (its low 32 bits) |
| `Host.CompileToBytecode` | wasmer-host/src/wasmer_host.rs:78-103 | missing memory is `Err`, untouched memory; an oversized source panics; a missing `compile_module` is `Err` with the source already staged; a trap is `Err` with the memory the trap left; an empty or non-i32 result panics; these are the only errors; success iff the guest, called with `(async, js, len)` on the staged memory, answers a size whose window fits afterwards; the result is exactly that many bytes at `ptr` of the post-call memory; a negative size is the capacity panic, and a size whose window does not fit is the slice panic |
| `Host.Eval` | wasmer-host/src/wasmer_host.rs:105-121 | never an error; both exports are looked up before the write; success iff the memory export exists, the source fits and `run` answers an i32; the memory afterwards is the one `run` left |
| `Host.WithRuntime` | wasmer-host/src/wasmer_host.rs:132 | the parameters' runtime becomes `js_rt_ptr as u32` and the other fields are kept |
| `Host.DispatchArgs` | wasmer-host/src/wasmer_host.rs:135-137 | `run_module_function` gets `(async_rt_ptr, len)` in that order, where `len` is the length cast to `i32` (its low 32 bits) |
| `Host.RunModuleFunction` | wasmer-host/src/wasmer_host.rs:123-142 | missing exports panic and leave the parameters alone; otherwise the caller's parameters come back with the runtime overwritten; a serializer failure, an oversized request, an empty or non-i32 result, a reported length that does not fit, and invalid UTF-8 each panic; a guest trap is `Err` with the memory the trap left, and the only error; success iff the parameters with the runtime overwritten serialize, fit, and the guest answers a length whose window fits and holds UTF-8; the reply is exactly those bytes of the post-call memory |
| `Host.CompileOnFreshInstance` | wasmer-host/src/wasmer_host.rs:154-157 | a bootstrap panic is the result; otherwise the result equals compiling on the fresh host under any module name |
| `Session.RunSession` | wasmer-host/src/wasmer_host.rs:76-142 | over any sequence of operations the three handles and the exports never change; each operation starts from the memory the previous one left; processing stops exactly at the first panic |
| `Properties.CompileIgnoresModuleName` | wasmer-host/src/wasmer_host.rs:78 | the module-name argument has no effect on compilation |
| `Properties.RunModuleFunctionIgnoresCallerRuntime` | wasmer-host/src/wasmer_host.rs:132-133 | the caller's runtime field has no effect on the call or on what is serialized |
| `Properties.EchoCompileRoundTrip` | wasmer-host/src/wasmer_host.rs:83-100 | a guest that leaves memory alone and reports the request length gets the source back from compilation |
| `Properties.EchoRunModuleFunctionRoundTrip` | wasmer-host/src/wasmer_host.rs:133-141 | a guest that echoes the serialized request gets those bytes back as the reply |
| `Properties.BootedHandlesPersist` | wasmer-host/src/wasmer_host.rs:36-49 | after bootstrap and any sequence of operations, the handle still holds the three integers the handshake returned |

## Left out

- Registry lookup, store and engine construction, and instantiation
  (`wasmer_host.rs:54-62`) are foreign library calls. They are one
  `instantiate` parameter; its failure is the panic of those unwraps.
- Import assembly (`init_wasi_dev_imports`, `wasmer_host.rs:145-152`) is
  library plumbing. It is folded into `instantiate`.
- Bincode serialization and `String::from_utf8` are opaque fields of a
  `Codec` value. A serializer error and invalid UTF-8 each panic.
- The fields of `RunModuleFunctionParameters` other than the runtime belong
  to the protocol crate, which is not part of this model. They are one
  opaque `request` string.
- What the guest's exports actually compute is left uninterpreted.
- The guest is assumed to be a deterministic function of the export name,
  the arguments and its linear memory. The real guest is instantiated with
  WASI and network imports (`wasmer_host.rs:145-152`). Through them it can
  read clocks, randomness, files and sockets, whose state lives on the host
  side. Wasm globals and tables also live outside linear memory. None of
  this state is modelled. The session properties rely on this assumption:
  there, each call's outcome is fixed by the memory it starts from.
- The `instance`/`instance_mut` accessors and the `println!` logging are
  not modelled.
- The `unsafe` aliasing of `data_unchecked_mut` is not modelled. Reads after
  a guest call use the memory as the call left it, bounded by that memory's
  length. A guest that grows memory during a call invalidates the host's
  slice, and this is not modelled.
- Allocation failure of `Vec::with_capacity` for a non-negative size is not
  modelled. A negative size is modelled as the capacity-overflow panic.
- Concurrency is not modelled. The code has no locking, and the model is
  single-threaded.
- A panic ends a session. Recovery with `catch_unwind` is not modelled.

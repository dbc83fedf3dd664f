/** The guest side as the host sees it: a wasm32 linear memory, the values an
    exported function returns, and an instance whose exported functions are an
    uninterpreted function of (export name, arguments, memory). */
module Wasm {
  import opened Rust

  type byte = bv8

  const PAGE_SIZE: int := 0x1_0000
  const MAX_PAGES: int := 0x1_0000
  /** A wasm32 linear memory holds at most 65536 pages of 64 KiB: 4 GiB. */
  const MAX_MEMORY: int := PAGE_SIZE * MAX_PAGES

  /** The exported memory `"memory"` viewed as a byte slice. */
  type Memory = m: seq<byte> | |m| <= MAX_MEMORY

  /** A value returned by an exported function. Only `i32` results are
      consumed by the host; every other wasm type (i64, f32, f64, v128,
      references) is one `NonI32` value. */
  datatype Val = I32(i: i32) | NonI32

  /** The effect of calling one export: it traps, or it returns its values.
      Either way the guest may have written its memory before it stopped. */
  datatype GuestResult =
    | Trap(after: Memory)
    | Returned(results: seq<Val>, after: Memory)

  /** The guest's behaviour: what the export `name` does when called with
      `args` on memory `mem`. Everything the script engine remembers between
      calls lives in that memory. */
  type Guest = (string, seq<Val>, Memory) -> GuestResult

  /** One instantiated module: its current memory, whether it exports a
      memory named `"memory"`, the names of its exported functions, and what
      those functions do. */
  datatype Instance = Instance(
    memory: Memory,
    exportsMemory: bool,
    functions: set<string>,
    guest: Guest)
}

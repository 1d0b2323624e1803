/**
  The few pieces of the Algorand Virtual Machine (AVM) that the counter
  contract relies on: 64-bit unsigned integers, byte strings, the checked
  arithmetic of TEAL (an overflow or underflow makes the program fail), and
  the application's global key-value store.
 */
module Teal {

  /** 2^64: every TEAL integer is strictly below it. */
  const UINT64_MODULUS: int := 0x1_0000_0000_0000_0000

  type Uint64 = x: int | 0 <= x < UINT64_MODULUS

  type Byte = b: int | 0 <= b < 256

  type Bytes = seq<Byte>

  /** The outcome of evaluating a TEAL expression: a value, or a failure
      (`err`, a failed assertion, an arithmetic overflow, an index out of
      range) that ends the program with a rejection. */
  datatype Eval<T> = Ok(value: T) | Fail

  /** The bytes of an ASCII string, as `Bytes("...")` produces them. */
  function Ascii(s: string): (b: Bytes)
    requires forall i :: 0 <= i < |s| ==> s[i] as int < 128
    ensures |b| == |s|
    ensures forall i :: 0 <= i < |s| ==> b[i] == s[i] as int
  {
    seq(|s|, i requires 0 <= i < |s| => s[i] as int)
  }

  /** TEAL `+`: fails when the sum does not fit in 64 bits. */
  function Add(a: Uint64, b: Uint64): (r: Eval<Uint64>)
    ensures r.Ok? <==> a + b < UINT64_MODULUS
    ensures r.Ok? ==> r.value == a + b
  {
    if a + b < UINT64_MODULUS then Ok(a + b) else Fail
  }

  /** TEAL `-`: fails when the difference would be negative. */
  function Sub(a: Uint64, b: Uint64): (r: Eval<Uint64>)
    ensures r.Ok? <==> b <= a
    ensures r.Ok? ==> r.value + b == a
  {
    if b <= a then Ok(a - b) else Fail
  }

  /** The application's global state: byte-string keys to integer values. */
  type Globals = map<Bytes, Uint64>

  /** `app_global_get`: the stored value, or 0 when the key is absent. */
  function GlobalGet(g: Globals, key: Bytes): (v: Uint64)
    ensures key in g ==> v == g[key]
    ensures key !in g ==> v == 0
  {
    if key in g then g[key] else 0
  }

  /** `app_global_put`: binds `key` to `v` and leaves every other key alone. */
  function GlobalPut(g: Globals, key: Bytes, v: Uint64): (g': Globals)
    ensures key in g' && GlobalGet(g', key) == v
    ensures forall k :: k != key ==> (k in g' <==> k in g)
    ensures forall k :: k != key && k in g ==> g'[k] == g[k]
  {
    g[key := v]
  }
}

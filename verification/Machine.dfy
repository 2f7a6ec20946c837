// Machine integers, and the status codes the scheduler's functions return.
module Machine {

  // UINT64_MAX: the "no session" value of the cached minimum start time, and the value
  // at which start and finish times saturate.
  const U64_MAX: nat := 0xFFFF_FFFF_FFFF_FFFF

  // uint64_t and uint32_t arithmetic wraps silently.
  function Wrap64(x: int): nat {
    x % 0x1_0000_0000_0000_0000
  }

  function Wrap32(x: int): nat {
    x % 0x1_0000_0000
  }

  // Adding to a wrapped value is as good as wrapping the sum.
  lemma WrapAdd(a: int, b: int)
    ensures Wrap64(Wrap64(a) + b) == Wrap64(a + b)
    ensures Wrap32(Wrap32(a) + b) == Wrap32(a + b)
  {
  }

  lemma WrapSmall(a: nat)
    ensures a <= U64_MAX ==> Wrap64(a) == a
    ensures a < 0x1_0000_0000 ==> Wrap32(a) == a
  {
  }

  function Max(a: nat, b: nat): nat {
    if a > b then a else b
  }

  function Min(a: nat, b: nat): nat {
    if a < b then a else b
  }

  // Subtraction that stops at zero.
  function Minus(a: nat, b: nat): nat {
    if a >= b then a - b else 0
  }

  datatype Option<+T> = None | Some(value: T)

  datatype Status =
    | Success
    | InvalidArg
    | NoMemory
    | NotFound
    | Overbooked
    | NoWork
    | HasBacklog
    | Internal
}

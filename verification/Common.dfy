/** Shared value types: optional values, bytes, button masks and command keys. */
module Common {

  datatype Option<+T> = None | Some(value: T)

  /** A byte as a bit pattern. */
  type byte = bv8

  /** A byte as a number. */
  type octet = n: int | 0 <= n < 0x100

  /** A (session, command) pair. `NoKey` is what work without a client identity carries. */
  datatype Key = Key(session: nat, command: nat)

  const NoKey: Key := Key(0, 0)

  /** The mask bit `1 << (button - 1)` of HID button usage 1..8. */
  function ButtonBit(button: int): bv8 {
    if button == 1 then 0x01 else if button == 2 then 0x02
    else if button == 3 then 0x04 else if button == 4 then 0x08
    else if button == 5 then 0x10 else if button == 6 then 0x20
    else if button == 7 then 0x40 else if button == 8 then 0x80 else 0
  }

  /** The union of two button masks. */
  function Either(a: bv8, b: bv8): bv8 { a | b }

  function Max(a: int, b: int): int { if a < b then b else a }

  function Min(a: int, b: int): int { if a < b then a else b }
}

/** Values shared by the keyboard emulator's components: bytes as they travel
    over D-Bus and Bluetooth sockets, an optional slot, and the D-Bus variant
    values carried in property maps. */
module Common {

  /** One octet, as D-Bus type `y` and Python `bytes` elements are. */
  newtype byte = x: int | 0 <= x < 0x100

  datatype Option<+T> = None | Some(value: T)

  /** Why a request to the service fails: the interrupt channel slot was
      never filled (`btk_server.py` raises on `None.send`), or the key list
      does not have six entries (its `assert` in `send_keys` fails). */
  datatype Error = NotConnected | InvalidReportLength(length: nat)

  datatype Outcome = Ok | Fail(error: Error)

  /** D-Bus variant values in a property map (`a{sv}`), limited to booleans,
      integers and strings. BlueZ sends `Device1.Connected` as a boolean; the
      integer and string kinds cover other entries of a change set. Integer
      D-Bus types (Byte, UInt16, UInt32, ...) all arrive as Python integers.
      Doubles, arrays and dictionaries are not representable here. */
  datatype Variant =
    | VBool(b: bool)
    | VInt(i: int)
    | VStr(s: string)

  /** Python truthiness of a variant: `not v` holds exactly when this is false. */
  predicate Truthy(v: Variant)
  {
    match v
    case VBool(b) => b
    case VInt(i) => i != 0
    case VStr(s) => s != ""
  }
}

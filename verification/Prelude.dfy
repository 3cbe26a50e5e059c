// Shared value types: fixed-width integers, optional values, results and the
// errors that the domain layer reports.
module Prelude {
  datatype Option<+T> = None | Some(value: T)

  datatype Result<+T, +E> = Ok(value: T) | Err(error: E)

  type U8 = n: int | 0 <= n < 0x100
  type U16 = n: int | 0 <= n < 0x1_0000
  type U32 = n: int | 0 <= n < 0x1_0000_0000
  type I32 = n: int | -0x8000_0000 <= n < 0x8000_0000

  const U32_MAX: U32 := 0xFFFF_FFFF

  /** Why a hex payload was refused. */
  datatype HexFault = NonHex(c: char) | OddDigits

  /** The errors of the domain layer, without their wording. */
  datatype DomainError =
    | UnknownId(token: string)
    | IdAlreadyInUse(token: string)
    | LabelAlreadyInUse(name: string)
    | InvalidHex(fault: HexFault)
    | ServerHasNoChildren(token: string)
    | EmptyPayload
    | Io(message: string)
    | Logic(message: string)
}

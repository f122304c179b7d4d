/** Machine integers, Option and Result shared by every module of the model. */
module Base {

  datatype Option<+T> = None | Some(value: T)

  datatype Result<+T, +E> = Ok(value: T) | Err(error: E)

  const U32: int := 0x1_0000_0000

  /** Go's uint32: ledger sequences, event indexes and transaction indexes. */
  type u32 = x: int | 0 <= x < 0x1_0000_0000

  /** uint32 addition with its wrap-around. */
  function Add32(a: u32, b: u32): (r: u32)
    ensures r == a + b || r == a + b - U32
    ensures a + b < U32 <==> r == a + b
  {
    if a + b < U32 then a + b else a + b - U32
  }

  /** uint32 subtraction with its wrap-around. */
  function Sub32(a: u32, b: u32): (r: u32)
    ensures r == a - b || r == a - b + U32
    ensures b <= a <==> r == a - b
  {
    if b <= a then a - b else a - b + U32
  }

  function Min(a: int, b: int): int {
    if a <= b then a else b
  }
}

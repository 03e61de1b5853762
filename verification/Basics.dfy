/** Bytes, bounded integers and the option type shared by every module. */
module Basics {

  datatype Option<+T> = None | Some(value: T) {
    function GetOr(default: T): T {
      match this
      case Some(v) => v
      case None => default
    }
  }

  /** The C++ `std::string` is a byte string. */
  type byte = b: int | 0 <= b < 0x100
  type Bytes = seq<byte>

  const INT32_MAX := 0x7fff_ffff
  const UINT64_MAX := 0xffff_ffff_ffff_ffff
  const WORD := UINT64_MAX + 1

  /** A size of something in memory. */
  type Size = x: int | 0 <= x <= UINT64_MAX

  predicate IsInt32(x: int) {
    -0x8000_0000 <= x <= INT32_MAX
  }

  predicate IsInt64(x: int) {
    -0x8000_0000_0000_0000 <= x <= 0x7fff_ffff_ffff_ffff
  }

  function Max(a: int, b: int): int {
    if a < b then b else a
  }

  function Min(a: int, b: int): int {
    if a < b then a else b
  }

  function Last<T>(s: seq<T>): T
    requires s != []
  {
    s[|s| - 1]
  }

  function Init<T>(s: seq<T>): seq<T>
    requires s != []
  {
    s[..|s| - 1]
  }
}

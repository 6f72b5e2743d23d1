/** The failure-carrying datatypes shared by every module. */
module Wrappers {
  datatype Option<+T> = None | Some(value: T) {
    function GetOr(default: T): T {
      match this
      case Some(v) => v
      case None => default
    }
  }

  datatype Outcome = Pass | Fail(error: string)

  datatype Result<+T> = Ok(value: T) | Err(error: string) {
    function GetOk(default: T): T {
      match this
      case Ok(v) => v
      case Err(_) => default
    }
  }

  /** Machine widths of the source: `u32` counters and `i32` exit codes. */
  type u32 = n: int | 0 <= n < 0x1_0000_0000
  type i32 = n: int | -0x8000_0000 <= n < 0x8000_0000
  type byte = n: int | 0 <= n < 256
}

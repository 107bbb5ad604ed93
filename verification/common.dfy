/** C-level vocabulary shared by the probe's model: integer ranges, errno values
    and the (return value, errno) pair a libbpf call leaves behind. */
module Common {

  datatype Option<T> = None | Some(value: T)

  /** A C `int` on the platforms the probe targets: 32-bit two's complement. */
  type Int32 = x: int | -0x8000_0000 <= x < 0x8000_0000

  /** A C `uint32_t` / `__u32`. */
  type UInt32 = x: int | 0 <= x < 0x1_0000_0000

  /** `ENOENT` ("No such file or directory") on Linux. */
  const ENOENT: int := 2

  /** What a libbpf call hands back: its return value and `errno` read right after it. */
  datatype CallResult = CallResult(ret: int, errno: int)

  /** A batch update or batch lookup is treated as having gone through when it
      returned 0, or when it failed with `ENOENT` (batch operations over a hash
      map report running out of elements that way). */
  predicate BatchCallOk(c: CallResult)
  {
    c.ret == 0 || c.errno == ENOENT
  }
}

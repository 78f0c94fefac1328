/** Value types shared by the connection-pool model: the C integer widths
    that appear in the interface and an Option standing for a nullable pointer. */
module Common {

  /** A C `int` on the platforms the library targets. */
  newtype int32 = x: int | -0x8000_0000 <= x < 0x8000_0000

  /** A C `uint32_t`. */
  newtype uint32 = x: int | 0 <= x < 0x1_0000_0000

  /** A byte, the unit C strings and `std::string::size()` count in. */
  newtype uint8 = x: int | 0 <= x < 0x100

  /** The byte content of a C string or `std::string`, without the
      terminating NUL: lengths of `Bytes` are byte counts. */
  type Bytes = seq<uint8>

  /** `None` plays the part of a NULL pointer. */
  datatype Option<+T> = None | Some(value: T)
}

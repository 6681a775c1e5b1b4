/**
 * The raw scalars the device reports and accepts, and the exceptions the
 * mapping layer raises.
 */
module Wire {
  import opened Wrappers

  /** A raw property value as it arrives from (or is sent to) the device. */
  datatype Value = IntVal(i: int) | BoolVal(b: bool) | StrVal(s: string)

  /**
   * The integer a raw value compares equal to under Python's `==`, which is
   * what both an enum lookup by value and a test `v in [0, 1, 6, 9]` use:
   * `True == 1` and `False == 0`; a string or a missing value (`None`)
   * equals no integer.
   */
  function AsInt(v: Option<Value>): Option<int>
  {
    match v
    case Some(IntVal(i)) => Some(i)
    case Some(BoolVal(b)) => Some(if b then 1 else 0)
    case _ => None
  }

  /** `v` is an integer in `lo..hi`. */
  predicate Between(v: Option<int>, lo: int, hi: int) {
    v.Some? && lo <= v.value <= hi
  }

  /** What a call of the mapping layer can raise. */
  datatype Error =
    | KeyError(key: string)                        // `self.data[key]` on an absent key
    | ValueError(enumName: string, value: Option<Value>) // `SomeEnum(value)` with a non-member value
    | DeviceException(property: string, argument: int)   // a setter's range check failed
}

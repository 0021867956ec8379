/** Kotlin's nullable values, the kit's emptiness test on nullable strings,
    and how a string template renders a nullable string. */
module Nullable {

  /** A value that may be null. */
  datatype Option<+T> = None | Some(value: T) {

    /** The value, or `default` when null (Kotlin's `?:`). */
    function GetOr(default: T): T {
      if Some? then value else default
    }
  }

  /** `KitUtils.isEmpty`: null, or a string of length zero. */
  predicate IsEmpty(s: Option<string>) {
    s.None? || |s.value| == 0
  }

  /** The text a Kotlin string template (`"$x"`) or a Java string
      concatenation produces for a nullable string: `null` prints as "null". */
  function Template(s: Option<string>): (r: string)
    ensures s.Some? ==> r == s.value
    ensures s.None? ==> r == "null"
    ensures |r| > 0 || s == Some("")
  {
    match s
    case None => "null"
    case Some(v) => v
  }
}

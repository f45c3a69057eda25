/** Nullable values of the sender: `None` stands for Kotlin's `null`. */
module Options {

  datatype Option<+T> = None | Some(value: T)

  /** `TextUtils.isEmpty`: true for `null` and for the empty string. */
  predicate IsEmpty(s: Option<string>)
  {
    s.None? || s.value == ""
  }

  /** Kotlin's `toString()` on a nullable string: `null` renders as the text "null". */
  function NullableToString(s: Option<string>): (r: string)
    ensures s.Some? ==> r == s.value
    ensures s.None? ==> r == "null"
  {
    match s
    case None => "null"
    case Some(v) => v
  }
}

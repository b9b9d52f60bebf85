/** The `StringExtensions` helper class: a fallback for null or empty strings. */
module StringExtensions {
  import opened Wrappers
  import opened Strings

  /** `s.ValueOrDefault(defaultValue)`: `s` unless it is null or empty. */
  function ValueOrDefault(s: NullableString, defaultValue: NullableString): (r: NullableString)
    ensures IsNullOrEmpty(s) ==> r == defaultValue
    ensures !IsNullOrEmpty(s) ==> r == s
    ensures IsNullOrEmpty(r) <==> IsNullOrEmpty(s) && IsNullOrEmpty(defaultValue)
  {
    if IsNullOrEmpty(s) then defaultValue else s
  }

  /** Falling back twice to the same default is falling back once. */
  lemma ValueOrDefaultIdempotent(s: NullableString, defaultValue: NullableString)
    ensures ValueOrDefault(ValueOrDefault(s, defaultValue), defaultValue)
         == ValueOrDefault(s, defaultValue)
  {
  }
}

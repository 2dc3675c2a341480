// The few pieces of the .NET base library whose exact behaviour the billing
// core depends on: nullable references, string.IsNullOrEmpty,
// string.IsNullOrWhiteSpace, the ordinal string.Contains, unchecked 32-bit
// integer arithmetic and DateTime arithmetic in whole seconds.

module DotNet {

  /** A C# reference that may be null. */
  datatype Option<+T> = None | Some(value: T)

  /** A value or the error that replaced it (a thrown exception, in the source). */
  datatype Result<+T, +E> = Ok(value: T) | Err(error: E)

  /** char.IsWhiteSpace: the Unicode space, line and paragraph separators,
      the control characters U+0009..U+000D and U+0085. */
  predicate IsWhiteSpace(c: char)
  {
    || ('\U{0009}' <= c <= '\U{000D}')
    || c == '\U{0020}'
    || c == '\U{0085}'
    || c == '\U{00A0}'
    || c == '\U{1680}'
    || ('\U{2000}' <= c <= '\U{200A}')
    || c == '\U{2028}'
    || c == '\U{2029}'
    || c == '\U{202F}'
    || c == '\U{205F}'
    || c == '\U{3000}'
  }

  /** string.IsNullOrEmpty */
  predicate IsNullOrEmpty(s: Option<string>)
  {
    s.None? || s.value == ""
  }

  /** string.IsNullOrWhiteSpace: null, empty, or whitespace only. */
  predicate IsNullOrWhiteSpace(s: Option<string>)
  {
    s.None? || forall i :: 0 <= i < |s.value| ==> IsWhiteSpace(s.value[i])
  }

  /** Blank strings are exactly null, "" and strings whose every character is
      white space; a string with one visible character is never blank. */
  lemma {:induction false} NotBlankWhenVisible(s: string, k: nat)
    requires k < |s| && !IsWhiteSpace(s[k])
    ensures !IsNullOrWhiteSpace(Some(s))
  {
  }

  /** t occurs in s starting at index i. */
  predicate OccursAt(s: string, t: string, i: nat)
  {
    i + |t| <= |s| && s[i..i + |t|] == t
  }

  /** string.Contains(string): ordinal, hence case-sensitive, substring search. */
  predicate Contains(s: string, t: string)
  {
    exists i: nat :: i + |t| <= |s| && OccursAt(s, t, i)
  }

  /** A string cannot contain a pattern holding a character it lacks. */
  lemma {:induction false} MissingCharNotContained(s: string, t: string, k: nat)
    requires k < |t| && t[k] !in s
    ensures !Contains(s, t)
  {
  }

  /** A string contains the pattern when the pattern sits between two pieces. */
  lemma {:induction false} ContainsInfix(a: string, t: string, b: string)
    ensures Contains(a + t + b, t)
  {
    var s := a + t + b;
    assert s[|a|..|a| + |t|] == t;
    assert OccursAt(s, t, |a|);
  }

  const Int32Min: int := -0x8000_0000
  const Int32Max: int := 0x7FFF_FFFF

  /** A C# int. */
  type Int32 = x: int | Int32Min <= x <= Int32Max

  /** The int result of unchecked C# integer arithmetic: two's complement
      wrap-around modulo 2^32. */
  function WrapInt32(x: int): (r: Int32)
    ensures Int32Min <= x <= Int32Max ==> r == x
    ensures (r - x) % 0x1_0000_0000 == 0
  {
    (x - Int32Min) % 0x1_0000_0000 + Int32Min
  }

  /** DateTime, in seconds since 0001-01-01 00:00:00 (default(DateTime) is 0). */
  type DateTime = int

  const SecondsPerMinute: int := 60
  const SecondsPerDay: int := 86400
  /** DateTime.MaxValue (9999-12-31 23:59:59), in whole seconds. */
  const MaxDateTime: int := 315537897599

  /** DateTime.AddMinutes with a whole number of minutes. */
  function AddMinutes(t: DateTime, minutes: int): (r: DateTime)
    ensures r - t == minutes * SecondsPerMinute
  {
    t + minutes * SecondsPerMinute
  }

  /** DateTime.AddDays with a whole number of days. */
  function AddDays(t: DateTime, days: int): (r: DateTime)
    ensures r - t == days * SecondsPerDay
  {
    t + days * SecondsPerDay
  }
}
